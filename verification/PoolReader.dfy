/** `PoolReader::acquire` and the drop of a slot as the code they are: a loop
    around the share gate, with everything else in the copier running between
    any two of its atomic actions. The fields are those of the step system of
    `PartPool`; `trace` is the schedule that led to them. */
module PoolReader {
  import opened PartPool
  import opened PartPoolSafety

  /** What the reader task of file `f` does itself, or what ends it. */
  predicate OwnStep(step: Step, f: nat) {
    step.Act? && step.f == f &&
    match step.action
    case OfGate(_) => true
    case OfRead(r) => !r.Get? && !r.Ask? && !r.Recv? && !r.Eof?
    case OfDrop(d) => d.Die? || d.DropHand? || d.DropGet? || d.DropAcquire? || d.DropReader?
  }

  /** The actions of that task in a schedule, in order. */
  function OwnOf(trace: seq<Step>, f: nat): seq<Action> {
    if trace == [] then []
    else
      var last := trace[|trace| - 1];
      OwnOf(trace[..|trace| - 1], f) + if OwnStep(last, f) then [last.action] else []
  }

  lemma {:induction false} OwnOneMore(trace: seq<Step>, step: Step, f: nat)
    ensures OwnOf(trace + [step], f) == if OwnStep(step, f) then OwnOf(trace, f) + [step.action] else OwnOf(trace, f)
  {
    assert (trace + [step])[..|trace|] == trace && OwnOf(trace, f) + [] == OwnOf(trace, f);
  }

  /** `s` is where the schedule leads from an idle pool. */
  ghost predicate Scheduled(start: State, trace: seq<Step>, s: State) {
    Init(start) && Valid(start, trace) && Run(start, trace) == s
  }

  lemma {:induction false} ScheduledInv(start: State, trace: seq<Step>, s: State)
    requires Scheduled(start, trace, s)
    ensures Inv(s)
  {
    InitInv(start);
    RunKeeps(start, trace);
  }

  lemma {:induction false} ScheduledOneMore(start: State, trace: seq<Step>, s: State, step: Step)
    requires Scheduled(start, trace, s) && Enabled(s, step)
    ensures Scheduled(start, trace + [step], Apply(s, step))
  {
    RunOneMore(start, trace, step);
  }

  /** What others leave alone in a file whose task is in `acquire`: only a permit
      can be set aside for it, and its wake-ups can become ready. */
  ghost predicate Undisturbed(x: File, y: File) {
    && Kept(x, y)
    && (y.acq.gate == x.acq.gate || (x.acq.gate.Queued? && y.acq.gate.Granted?))
    && (x.acq.own ==> y.acq.own) && (x.acq.share ==> y.acq.share)
  }

  /** The parts of a file that its `acquire` only changes by taking a slot. */
  ghost predicate Kept(x: File, y: File) {
    && y.task == x.task && y.pipe.todo == x.pipe.todo && |y.pipe.window| == |x.pipe.window|
    && y.pipe.hand == x.pipe.hand
  }

  lemma {:induction false} ActDoesNotDisturb(c: nat, share: nat, x: File, a: Action, y: File)
    requires Ready(c, x, a) && !OwnStep(Act(0, a), 0) && y == Moved(c, share, x, a)
    ensures Undisturbed(x, y)
  {
    match a
    case OfGate(_) =>
    case OfRead(r) =>
    case OfDrop(d) =>
  }

  lemma {:induction false} OthersDoNotDisturb(s: State, step: Step, f: nat)
    requires Inv(s) && Enabled(s, step) && !OwnStep(step, f) && f < |s.files|
    ensures var t := Apply(s, step); |t.files| == |s.files| && Undisturbed(s.files[f], t.files[f])
  {
    match step
    case NotifyReaders =>
    case Grant => assert s.waiters[0] in s.waiters;
    case Act(g, a) =>
      if g == f { ActDoesNotDisturb(s.c, Share(s), s.files[f], a, Apply(s, step).files[f]); }
  }

  // ----- the actions of one acquire -----

  /** One check of the share: both futures, then the comparison. */
  predicate IsCheck(own: seq<Action>) {
    && |own| == 4 && own[0] == OfGate(Create) && own[1] == OfGate(Listen) && own[2] == OfGate(Compare)
    && own[3].OfGate? && own[3].g.Decide?
  }

  /** Once round the loop: a check, and a wake-up. */
  predicate IsRound(own: seq<Action>) { |own| == 5 && IsCheck(own[..4]) && own[4].OfGate? && own[4].g.Wake? }

  predicate Rounds(own: seq<Action>, k: nat) {
    var n := |own|;
    if k == 0 then n == 0 else n >= 5 && Rounds(own[..n - 5], k - 1) && IsRound(own[n - 5..])
  }

  lemma {:induction false} OneMoreRound(own: seq<Action>, k: nat, did: seq<Action>)
    requires Rounds(own, k) && IsRound(did)
    ensures Rounds(own + did, k + 1)
  {
    var more := own + did;
    assert more[..|more| - 5] == own && more[|more| - 5..] == did;
  }

  lemma {:induction false} Rejoined(a: seq<Action>, b: seq<Action>, c: seq<Action>)
    ensures (a + b) + c == a + (b + c) && (c == [] ==> a + b + c == a + b)
  {
  }

  /** From `own` to `now` by `k` rounds, `past`, and then `last`. */
  ghost predicate WentRound(own: seq<Action>, now: seq<Action>, past: seq<Action>, k: nat, last: seq<Action>) {
    now == own + past + last && Rounds(past, k)
  }

  lemma {:induction false} WentOnce(own: seq<Action>, now: seq<Action>, past: seq<Action>, k: nat, did: seq<Action>)
    requires WentRound(own, now, past, k, [])
    ensures WentRound(own, now + did, past, k, did)
    ensures IsRound(did) ==> WentRound(own, now + did, past + did, k + 1, [])
  {
    Rejoined(own, past, []);
    Rejoined(own, past, did);
    Rejoined(own, past + did, []);
    if IsRound(did) { OneMoreRound(past, k, did); }
  }

  /** Where an `acquire` that has no slot stands: parked with no wake-up ready, in the
      semaphore's queue, or about to go round the loop once more. */
  ghost predicate StillWaits(q: Acquire) {
    q.gate.Closed? || q.gate.Queued? || (q.gate.Parked? && !q.own && !q.share)
  }

  class Pool {
    const size: nat
    const c: nat
    ghost const start: State
    var permits: nat
    var readers: nat
    var notifying: nat
    var waiters: seq<nat>
    var files: seq<File>
    ghost var trace: seq<Step>
    ghost var looks: nat // how often time was given to the others

    ghost function View(): State
      reads this
    {
      State(size, c, permits, readers, notifying, waiters, files)
    }

    ghost predicate Valid()
      reads this
    {
      Scheduled(start, trace, View())
    }

    constructor (size: nat, c: nat, files: seq<File>)
      requires Init(State(size, c, size, 0, 0, [], files))
      ensures Valid() && View() == State(size, c, size, 0, 0, [], files) && start == View() && trace == []
    {
      this.size, this.c, this.files := size, c, files;
      permits, readers, notifying, waiters := size, 0, 0, [];
      start, trace, looks := State(size, c, size, 0, 0, [], files), [], 0;
    }

    /** One atomic action. */
    method Do(step: Step)
      requires Valid() && Enabled(View(), step)
      modifies this
      ensures Valid() && View() == Apply(old(View()), step)
      ensures trace == old(trace) + [step] && looks == old(looks)
    {
      var s := State(size, c, permits, readers, notifying, waiters, files);
      var t := Apply(s, step);
      ScheduledOneMore(start, trace, s, step);
      permits, readers, notifying, waiters, files := t.permits, t.readers, t.notifying, t.waiters, t.files;
      trace := trace + [step];
    }

    /** One atomic action of the reader task of file `f`. */
    method Own(f: nat, a: Action)
      requires Valid() && OwnStep(Act(f, a), f) && Enabled(View(), Act(f, a))
      modifies this
      ensures Valid() && View() == After(old(View()), f, a) && looks == old(looks)
      ensures trace == old(trace) + [Act(f, a)] && OwnOf(trace, f) == old(OwnOf(trace, f)) + [a]
    {
      OwnOneMore(trace, Act(f, a), f);
      Do(Act(f, a));
    }

    /** Whatever the others do, for a while. */
    method Interfere(f: nat)
      requires Valid() && f < |files|
      modifies this
      ensures Valid() && |files| == |old(files)| && Undisturbed(old(files)[f], files[f])
      ensures looks == old(looks) + 1 && OwnOf(trace, f) == old(OwnOf(trace, f))
    {
      var n: int := *;
      for k := 0 to if n < 0 then 0 else n
        invariant Valid() && |files| == |old(files)| && Undisturbed(old(files)[f], files[f])
        invariant looks == old(looks) && OwnOf(trace, f) == old(OwnOf(trace, f))
      {
        var step: Step := *;
        if Enabled(State(size, c, permits, readers, notifying, waiters, files), step) && !OwnStep(step, f) {
          ScheduledInv(start, trace, View());
          OthersDoNotDisturb(View(), step, f);
          OwnOneMore(trace, step, f);
          Do(step);
        }
      }
      looks := looks + 1;
    }

    /** Registers for both wake-ups. */
    method EnableBoth(f: nat)
      requires Valid() && f < |files| && GateReady(c, files[f], Create)
      modifies this
      ensures Valid() && |files| == |old(files)| && files[f].acq.gate == Listening && Kept(old(files)[f], files[f])
      ensures looks >= old(looks) && OwnOf(trace, f) == old(OwnOf(trace, f)) + [OfGate(Create), OfGate(Listen)]
    {
      ghost var own := OwnOf(trace, f);
      Own(f, OfGate(Create));
      Interfere(f);
      Own(f, OfGate(Listen));
      Interfere(f);
      assert own + [OfGate(Create)] + [OfGate(Listen)] == own + [OfGate(Create), OfGate(Listen)];
    }

    /** `held` as loaded, against the fair share as it is now. */
    method BelowNow(held: nat) returns (below: bool)
      ensures below == (held < FairShare(size, readers))
      ensures below <==> held == 0 || (held + 1) * (if readers == 0 then 1 else readers) <= size
    {
      below := held < FairShare(size, readers);
      ShareIs(size, readers, held + 1);
    }

    /** The first half of the share check: `held` is loaded; then the others go on. */
    method LoadHeld(f: nat)
      requires Valid() && f < |files| && files[f].acq.gate == Listening && Polling(files[f])
      modifies this
      ensures Valid() && |files| == |old(files)| && Kept(old(files)[f], files[f])
      ensures files[f].acq.gate == Compared(old(files)[f].acct.held)
      ensures looks >= old(looks) && OwnOf(trace, f) == old(OwnOf(trace, f)) + [OfGate(Compare)]
    {
      Own(f, OfGate(Compare));
      Interfere(f);
    }

    /** The second half of the share check: `readers` is loaded, and the file goes on. */
    method Judge(f: nat) returns (below: bool, ghost decide: Action)
      requires Valid() && f < |files| && files[f].acq.gate.Compared? && Polling(files[f])
      modifies this
      ensures Valid() && |files| == |old(files)| && Kept(old(files)[f], files[f])
      ensures var held := old(files)[f].acq.gate.seen;
              below <==> held == 0 || (held + 1) * (if readers == 0 then 1 else readers) <= size
      ensures files[f].acq.gate == if below then Queued else Parked
      ensures looks == old(looks) && decide.OfGate? && decide.g.Decide?
      ensures OwnOf(trace, f) == old(OwnOf(trace, f)) + [decide]
    {
      below := BelowNow(files[f].acq.gate.seen);
      var forward: bool := *;
      decide := OfGate(Decide(forward));
      Own(f, OfGate(Decide(forward)));
    }

    /** The share check: `held` is loaded first, when the call begins, then, when it
        ends, `readers`. The file is let into the semaphore's queue exactly when it
        holds nothing, or when every reading file could hold one slot more than it
        does. */
    method BelowShare(f: nat) returns (below: bool, ghost decide: Action)
      requires Valid() && f < |files| && files[f].acq.gate == Listening && Polling(files[f])
      modifies this
      ensures Valid() && |files| == |old(files)| && Kept(old(files)[f], files[f])
      ensures var held := old(files)[f].acct.held;
              below <==> held == 0 || (held + 1) * (if readers == 0 then 1 else readers) <= size
      ensures files[f].acq.gate == if below then Queued else Parked
      ensures looks >= old(looks) && decide.OfGate? && decide.g.Decide?
      ensures OwnOf(trace, f) == old(OwnOf(trace, f)) + [OfGate(Compare), decide]
    {
      ghost var own := OwnOf(trace, f);
      LoadHeld(f);
      below, decide := Judge(f);
      assert own + [OfGate(Compare)] + [decide] == own + [OfGate(Compare), decide];
    }

    /** Waits for a wake-up, and takes one that is ready; gives up after `patience`
        looks, with none ready. */
    method Park(f: nat, patience: nat) returns (woken: bool, ghost wake: Action)
      requires Valid() && f < |files| && files[f].acq.gate == Parked && Polling(files[f])
      modifies this
      ensures Valid() && |files| == |old(files)| && Kept(old(files)[f], files[f]) && looks >= old(looks)
      ensures woken ==> files[f].acq.gate == Closed && wake.OfGate? && wake.g.Wake?
                        && OwnOf(trace, f) == old(OwnOf(trace, f)) + [wake]
      ensures !woken ==> files[f].acq.gate == Parked && !files[f].acq.own && !files[f].acq.share
                         && looks >= old(looks) + patience && OwnOf(trace, f) == old(OwnOf(trace, f))
    {
      var n := 0;
      while n < patience && !files[f].acq.own && !files[f].acq.share
        invariant Valid() && |files| == |old(files)| && Kept(old(files)[f], files[f]) && files[f].acq.gate == Parked
        invariant 0 <= n <= patience && looks == old(looks) + n && OwnOf(trace, f) == old(OwnOf(trace, f))
      {
        Interfere(f);
        n := n + 1;
      }
      woken := files[f].acq.own || files[f].acq.share;
      var byOwn: bool, forward: bool := *, *;
      byOwn := if files[f].acq.own && files[f].acq.share then byOwn else files[f].acq.own;
      wake := OfGate(Wake(byOwn, forward));
      if woken { Own(f, OfGate(Wake(byOwn, forward))); }
    }

    /** Waits in the semaphore's queue for a permit, served in order of arrival;
        gives up after `patience` looks. */
    method WaitForPermit(f: nat, patience: nat) returns (granted: bool)
      requires Valid() && f < |files| && files[f].acq.gate == Queued && Polling(files[f])
      modifies this
      ensures Valid() && |files| == |old(files)| && Kept(old(files)[f], files[f])
      ensures files[f].acq.gate == (if granted then Granted else Queued) && looks >= old(looks)
      ensures (!granted ==> looks >= old(looks) + patience) && OwnOf(trace, f) == old(OwnOf(trace, f))
    {
      var n := 0;
      while n < patience && files[f].acq.gate.Queued?
        invariant Valid() && |files| == |old(files)| && Kept(old(files)[f], files[f])
        invariant files[f].acq.gate.Queued? || files[f].acq.gate.Granted?
        invariant 0 <= n <= patience && looks == old(looks) + n && OwnOf(trace, f) == old(OwnOf(trace, f))
      {
        Interfere(f);
        n := n + 1;
      }
      granted := files[f].acq.gate.Granted?;
    }

    /** One check of the share, from the registration on. */
    method Check(f: nat) returns (below: bool, ghost check: seq<Action>)
      requires Valid() && f < |files| && GateReady(c, files[f], Create)
      modifies this
      ensures Valid() && |files| == |old(files)| && Kept(old(files)[f], files[f]) && looks >= old(looks)
      ensures files[f].acq.gate == (if below then Queued else Parked)
      ensures IsCheck(check) && OwnOf(trace, f) == old(OwnOf(trace, f)) + check
    {
      ghost var own, decide := OwnOf(trace, f), OfGate(Create);
      EnableBoth(f);
      below, decide := BelowShare(f);
      check := [OfGate(Create), OfGate(Listen), OfGate(Compare), decide];
      assert own + [OfGate(Create), OfGate(Listen)] + [OfGate(Compare), decide] == own + check;
    }

    /** Once round the loop, which goes on after a wake-up. */
    method GoRound(f: nat, patience: nat) returns (on: bool, ghost did: seq<Action>)
      requires Valid() && f < |files| && GateReady(c, files[f], Create)
      modifies this
      ensures Valid() && |files| == |old(files)| && Kept(old(files)[f], files[f]) && looks >= old(looks)
      ensures OwnOf(trace, f) == old(OwnOf(trace, f)) + did && StillWaits(files[f].acq)
      ensures if on then files[f].acq.gate.Closed? && IsRound(did) else !files[f].acq.gate.Closed? && IsCheck(did)
      ensures files[f].acq.gate.Parked? ==> looks >= old(looks) + patience
    {
      ghost var own, check, wake := OwnOf(trace, f), [], OfGate(Create);
      var below;
      below, check := Check(f);
      if below { return false, check; }
      on, wake := Park(f, patience);
      if !on { return false, check; }
      did := check + [wake];
      assert own + check + [wake] == own + did && did[..4] == check;
    }

    /** Goes round the loop until the file is below its share, which puts it into the
        semaphore's queue, or stays parked, or has gone round `patience` times. */
    method PassGate(f: nat, patience: nat) returns (ghost rounds: nat, ghost past: seq<Action>, ghost last: seq<Action>)
      requires Valid() && f < |files| && GateReady(c, files[f], Create)
      modifies this
      ensures Valid() && |files| == |old(files)| && Kept(old(files)[f], files[f]) && looks >= old(looks)
      ensures OwnOf(trace, f) == old(OwnOf(trace, f)) + past + last && Rounds(past, rounds)
      ensures StillWaits(files[f].acq)
      ensures if files[f].acq.gate.Closed? then last == [] && rounds == patience else IsCheck(last) && rounds < patience
      ensures files[f].acq.gate.Parked? ==> looks >= old(looks) + patience
    {
      rounds, past, last := 0, [], [];
      ghost var own := OwnOf(trace, f);
      Rejoined(own, [], []);
      var round, on := 0, true;
      while on && round < patience
        invariant Valid() && |files| == |old(files)| && Kept(old(files)[f], files[f]) && StillWaits(files[f].acq)
        invariant on == files[f].acq.gate.Closed? && looks >= old(looks)
        invariant 0 <= round && rounds <= patience && (if on then round == rounds && last == [] else IsCheck(last))
        invariant WentRound(own, OwnOf(trace, f), past, rounds, last)
        invariant !on ==> rounds < patience && (files[f].acq.gate.Parked? ==> looks >= old(looks) + patience)
      {
        ghost var did, now := [], OwnOf(trace, f);
        on, did := GoRound(f, patience);
        WentOnce(own, now, past, rounds, did);
        if on { past, rounds := past + did, rounds + 1; } else { last := did; }
        round := round + 1;
      }
    }

    /** Waits until the file is below its fair share, then for a free slot, and
        counts it. A slot taken is one more part in the GETs, the next in part
        order. What the reader itself did is `past`, so many rounds of checks and
        wake-ups, and then `last`: a check, and the slot. With no slot it waits still,
        having looked `patience` times, or having gone round the loop that often. */
    method Acquire(f: nat, patience: nat)
      returns (taken: bool, ghost rounds: nat, ghost past: seq<Action>, ghost last: seq<Action>)
      requires Valid() && f < |files| && GateReady(c, files[f], Create)
      modifies this
      ensures Valid() && |files| == |old(files)|
      ensures taken ==> var x, y := old(files)[f], files[f];
                && y.acq.gate == Closed && y.pipe.todo == x.pipe.todo[1..] && |y.pipe.window| == |x.pipe.window| + 1
                && y.pipe.window[|x.pipe.window|] == x.pipe.todo[0] && y.acct.held >= 1
      ensures OwnOf(trace, f) == old(OwnOf(trace, f)) + past + last && Rounds(past, rounds) && rounds <= patience
      ensures taken ==> |last| == 5 && IsCheck(last[..4]) && last[4] == OfRead(Take)
      ensures !taken ==> StillWaits(files[f].acq) && Kept(old(files)[f], files[f])
      ensures !taken && files[f].acq.gate.Closed? ==> last == [] && rounds == patience
      ensures !taken && !files[f].acq.gate.Closed? ==> IsCheck(last) && looks >= old(looks) + patience
    {
      taken := false;
      rounds, past, last := PassGate(f, patience);
      if !files[f].acq.gate.Queued? { return; }
      var granted := WaitForPermit(f, patience);
      if !granted { return; }
      ghost var own := OwnOf(trace, f);
      Own(f, OfRead(Take));
      assert own + [OfRead(Take)] == old(OwnOf(trace, f)) + past + (last + [OfRead(Take)]);
      assert (last + [OfRead(Take)])[..4] == last;
      taken, last := true, last + [OfRead(Take)];
    }

    // ----- the drop of a slot -----

    /** Whatever the others do, for a while, except that they do not do for us the
        `freeing` and `lowering` updates of `f` that are ours to do. */
    method InterfereAround(f: nat, freeing: nat, lowering: nat) returns (ghost others: seq<Step>)
      requires Valid() && f < |files| && files[f].acct.freeing >= freeing && files[f].acct.lowering >= lowering
      modifies this
      ensures Valid() && |files| == |old(files)| && trace == old(trace) + others
      ensures files[f].acct.freeing >= freeing && files[f].acct.lowering >= lowering
    {
      others := [];
      var n: int := *;
      for k := 0 to if n < 0 then 0 else n
        invariant Valid() && |files| == |old(files)| && trace == old(trace) + others
        invariant files[f].acct.freeing >= freeing && files[f].acct.lowering >= lowering
      {
        var step: Step := *;
        var ours := (step == Act(f, OfDrop(Lower)) && files[f].acct.freeing <= freeing)
                    || (step == Act(f, OfDrop(NotifyOwn)) && files[f].acct.lowering <= lowering);
        if Enabled(State(size, c, permits, readers, notifying, waiters, files), step) && !ours {
          OthersLeave(View(), step, f);
          Do(step);
          others := others + [step];
        }
      }
    }

    /** The consumer is done with a part: its permit goes back to the semaphore. */
    method FreePermit(f: nat)
      requires Valid() && f < |files| && files[f].consumer.Working?
      modifies this
      ensures Valid() && |files| == |old(files)| && permits == old(permits) + 1 && files[f].consumer.Asking?
      ensures files[f].acct == old(files)[f].acct.(freeing := old(files)[f].acct.freeing + 1)
      ensures trace == old(trace) + [Act(f, OfRead(Ask))]
    {
      Do(Act(f, OfRead(Ask)));
    }

    /** The file's own count follows. */
    method LowerHeld(f: nat)
      requires Valid() && f < |files| && files[f].acct.freeing > 0
      modifies this
      ensures Valid() && |files| == |old(files)| && permits == old(permits)
      ensures var n := old(files)[f].acct;
              n.held >= 1 && files[f].acct == Account(n.held - 1, n.freeing - 1, n.lowering + 1)
      ensures trace == old(trace) + [Act(f, OfDrop(Lower))]
    {
      ScheduledInv(start, trace, View());
      assert FileInv(c, files[f]);
      Do(Act(f, OfDrop(Lower)));
    }

    /** The file is woken, or finds the notification when it waits next. */
    method NotifyFile(f: nat)
      requires Valid() && f < |files| && files[f].acct.lowering > 0
      modifies this
      ensures Valid() && |files| == |old(files)| && permits == old(permits)
      ensures files[f].acq.own || files[f].acq.stored
      ensures files[f].acct == old(files)[f].acct.(lowering := old(files)[f].acct.lowering - 1)
      ensures trace == old(trace) + [Act(f, OfDrop(NotifyOwn))]
    {
      Do(Act(f, OfDrop(NotifyOwn)));
    }

    /** The drop of the slot of a part that was used, with anything else between its
        three updates: the permit goes back first, so that the file woken last can
        take it; then the count; then the notification, which reaches the file or is
        stored. */
    method DropSlot(f: nat) returns (ghost a: seq<Step>, ghost b: seq<Step>)
      requires Valid() && f < |files| && files[f].consumer.Working?
      modifies this
      ensures Valid() && |files| == |old(files)| && (files[f].acq.own || files[f].acq.stored)
      ensures trace == old(trace) + [Act(f, OfRead(Ask))] + a + [Act(f, OfDrop(Lower))] + b
              + [Act(f, OfDrop(NotifyOwn))]
    {
      FreePermit(f);
      a := InterfereAround(f, 1, 0);
      LowerHeld(f);
      b := InterfereAround(f, 0, 1);
      NotifyFile(f);
    }
  }

  /** Only their own two updates lower the counts of slots that are being freed. */
  lemma {:induction false} OthersLeave(s: State, step: Step, f: nat)
    requires Enabled(s, step) && f < |s.files|
    ensures var x, t := s.files[f].acct, Apply(s, step);
            && |t.files| == |s.files|
            && t.files[f].acct.freeing >= x.freeing - (if step == Act(f, OfDrop(Lower)) then 1 else 0)
            && t.files[f].acct.lowering >= x.lowering - (if step == Act(f, OfDrop(NotifyOwn)) then 1 else 0)
  {
    match step
    case NotifyReaders =>
    case Grant =>
    case Act(g, a) =>
  }
}
