/** What every step of the fleet keeps, and what follows for whole runs: the
    caps while listing, one live job per range, at most three attempts, and no
    second start for a canceled range. */
module FleetSafety {
  import opened Wrappers
  import opened Fleet
  import opened Sequences

  /** A copier's current job is one of its range; a terminal stage it saw is the
      actual one. */
  ghost predicate CopierIs(s: State, i: nat)
    requires i < |s.copiers|
  {
    var x := s.copiers[i];
    && x.job < |s.jobs| && s.jobs[x.job].range == i && s.jobs[x.job].heavy == x.heavy
    && Honest(s.jobs[x.job].stage, x.seen)
  }

  ghost predicate IsFlight(s: State, j: nat) { s.flight.Some? && s.flight.value.job == Some(j) }

  /** The start in flight is of the next range, or of a copier that has failed; no
      copier follows its job yet. */
  ghost predicate FlightIs(s: State) {
    s.flight.Some? ==>
      var f := s.flight.value;
      && f.range <= |s.copiers|
      && (s.phase.Listing? ==> f.range == |s.copiers|)
      && (s.phase.Monitoring? ==> f.range < |s.copiers|)
      && (f.range < |s.copiers| ==> s.copiers[f.range].seen == Error && s.copiers[f.range].heavy == f.heavy)
      && (f.job.Some? ==>
            && f.job.value < |s.jobs| && s.jobs[f.job.value].range == f.range && s.jobs[f.job.value].heavy == f.heavy
            && forall i :: 0 <= i < |s.copiers| ==> s.copiers[i].job != f.job.value)
  }

  /** Every job but its range's current one, and the one in flight, has failed. */
  ghost predicate JobIs(s: State, j: nat)
    requires j < |s.jobs|
  {
    var i := s.jobs[j].range;
    IsFlight(s, j) || (i < |s.copiers| && (s.copiers[i].job == j || s.jobs[j].stage == Error))
  }

  ghost function JobsOf(s: State, i: nat): set<nat> { set j: nat | j < |s.jobs| && s.jobs[j].range == i }

  /** A start of range `i` is in flight with no job yet. */
  predicate Expected(s: State, i: nat) { s.flight.Some? && s.flight.value.range == i && s.flight.value.job.None? }

  ghost predicate Tries(s: State, i: nat)
    requires i < |s.copiers|
  {
    1 <= |JobsOf(s, i)| && |JobsOf(s, i)| + One(Expected(s, i)) == s.copiers[i].attempts <= MAX_COPIER_ATTEMPTS
  }

  ghost predicate Inv(s: State) {
    && (forall i :: 0 <= i < |s.copiers| ==> CopierIs(s, i))
    && (forall j :: 0 <= j < |s.jobs| ==> JobIs(s, j))
    && (forall i :: 0 <= i < |s.copiers| ==> Tries(s, i))
    && FlightIs(s)
  }

  /** The planner's own count of what runs is within both caps. */
  predicate WithinCaps(maxInflight: nat, copiers: seq<Copier>) {
    Active(copiers) <= (if maxInflight == 0 then 1 else maxInflight) && ActiveHeavy(copiers) <= 2
  }

  /** There is room for a first start that is in flight. */
  ghost predicate Roomy(maxInflight: nat, s: State) {
    s.flight.Some? && s.flight.value.range == |s.copiers| ==> !Blocked(maxInflight, s.copiers, s.flight.value.heavy)
  }

  ghost predicate Capped(maxInflight: nat, s: State) {
    Roomy(maxInflight, s) && (s.phase.Listing? ==> WithinCaps(maxInflight, s.copiers))
  }

  // ----- counts of the planner -----

  function One(b: bool): nat { if b then 1 else 0 }

  lemma {:induction false} ActiveSet(copiers: seq<Copier>, i: nat, x: Copier)
    requires i < |copiers| && x.heavy == copiers[i].heavy
    ensures Active(copiers[i := x]) + One(Running(copiers[i])) == Active(copiers) + One(Running(x))
    ensures ActiveHeavy(copiers[i := x]) + One(x.heavy && Running(copiers[i])) ==
            ActiveHeavy(copiers) + One(x.heavy && Running(x))
  {
    var n := |copiers| - 1;
    if i < n {
      ActiveSet(copiers[..n], i, x);
      assert copiers[i := x][..n] == copiers[..n][i := x];
    } else {
      assert copiers[i := x][..n] == copiers[..n];
    }
  }

  lemma {:induction false} ActivePush(copiers: seq<Copier>, x: Copier)
    ensures Active(copiers + [x]) == Active(copiers) + One(Running(x))
    ensures ActiveHeavy(copiers + [x]) == ActiveHeavy(copiers) + One(x.heavy && Running(x))
  {
    assert (copiers + [x])[..|copiers|] == copiers;
  }

  // ----- each step -----

  lemma {:induction false} ServerKeeps(maxInflight: nat, s: State, j: nat, to: Stage, t: State)
    requires Enabled(maxInflight, s, Server(j, to)) && t == Apply(maxInflight, s, Server(j, to)) && Inv(s)
    ensures Inv(t)
  {
    forall i | 0 <= i < |t.copiers| ensures CopierIs(t, i) && Tries(t, i) {
      assert CopierIs(s, i) && Tries(s, i);
      assert JobsOf(t, i) == JobsOf(s, i);
    }
    forall k | 0 <= k < |t.jobs| ensures JobIs(t, k) { assert JobIs(s, k); }
  }

  lemma {:induction false} PollKeeps(maxInflight: nat, s: State, i: nat, told: Stage, t: State)
    requires Enabled(maxInflight, s, Poll(i, told)) && t == Apply(maxInflight, s, Poll(i, told)) && Inv(s)
    ensures Inv(t)
  {
    forall k | 0 <= k < |t.copiers| ensures CopierIs(t, k) && Tries(t, k) {
      assert CopierIs(s, k) && Tries(s, k);
      assert JobsOf(t, k) == JobsOf(s, k);
    }
    forall j | 0 <= j < |t.jobs| ensures JobIs(t, j) { assert JobIs(s, j); }
  }

  lemma {:induction false} LaunchKeeps(maxInflight: nat, s: State, heavy: bool, t: State)
    requires Enabled(maxInflight, s, Launch(heavy)) && t == Apply(maxInflight, s, Launch(heavy)) && Inv(s)
    ensures Inv(t)
  {
    forall i | 0 <= i < |t.copiers| ensures CopierIs(t, i) && Tries(t, i) {
      assert CopierIs(s, i) && Tries(s, i);
      assert JobsOf(t, i) == JobsOf(s, i);
    }
    forall j | 0 <= j < |t.jobs| ensures JobIs(t, j) { assert JobIs(s, j); }
  }

  lemma {:induction false} RelaunchKeeps(maxInflight: nat, s: State, i: nat, t: State)
    requires Enabled(maxInflight, s, Relaunch(i)) && t == Apply(maxInflight, s, Relaunch(i)) && Inv(s)
    ensures Inv(t)
  {
    forall k | 0 <= k < |t.copiers| ensures CopierIs(t, k) && Tries(t, k) {
      assert CopierIs(s, k) && Tries(s, k);
      assert JobsOf(t, k) == JobsOf(s, k);
    }
    forall j | 0 <= j < |t.jobs| ensures JobIs(t, j) { assert JobIs(s, j); }
  }

  lemma {:induction false} JobsGrow(s: State, t: State, x: Job, i: nat)
    requires t.jobs == s.jobs + [x]
    ensures |JobsOf(t, i)| == |JobsOf(s, i)| + One(x.range == i)
  {
    assert JobsOf(t, i) == JobsOf(s, i) + if x.range == i then {|s.jobs|} else {};
  }

  lemma {:induction false} CreateKeepsCopier(maxInflight: nat, s: State, actual: Stage, t: State, i: nat)
    requires Enabled(maxInflight, s, Create(actual)) && t == Apply(maxInflight, s, Create(actual)) && Inv(s)
    requires i < |s.copiers|
    ensures CopierIs(t, i) && Tries(t, i) && t.copiers[i].job != |s.jobs|
  {
    assert CopierIs(s, i) && Tries(s, i);
    JobsGrow(s, t, Job(s.flight.value.range, s.flight.value.heavy, actual), i);
  }

  lemma {:induction false} CreateKeeps(maxInflight: nat, s: State, actual: Stage, t: State)
    requires Enabled(maxInflight, s, Create(actual)) && t == Apply(maxInflight, s, Create(actual)) && Inv(s)
    ensures Inv(t)
  {
    forall i | 0 <= i < |t.copiers| ensures CopierIs(t, i) && Tries(t, i) && t.copiers[i].job != |s.jobs| {
      CreateKeepsCopier(maxInflight, s, actual, t, i);
    }
    forall j | 0 <= j < |t.jobs| ensures JobIs(t, j) { if j < |s.jobs| { assert JobIs(s, j); } }
  }

  /** The jobs of a range that was not answered for yet: at most the one in flight. */
  lemma {:induction false} NextRangeHasNone(s: State, i: nat)
    requires Inv(s) && i >= |s.copiers|
    ensures JobsOf(s, i) == if s.flight.Some? && s.flight.value.range == i && s.flight.value.job.Some?
                            then {s.flight.value.job.value} else {}
  {
    forall j: nat | j < |s.jobs| && s.jobs[j].range == i ensures IsFlight(s, j) { assert JobIs(s, j); }
  }

  lemma {:induction false} AnswerKeepsOthers(maxInflight: nat, s: State, told: Stage, t: State, i: nat)
    requires Enabled(maxInflight, s, Answer(told)) && t == Apply(maxInflight, s, Answer(told)) && Inv(s)
    requires i < |t.copiers|
    ensures CopierIs(t, i) && Tries(t, i)
  {
    assert JobsOf(t, i) == JobsOf(s, i);
    if i < |s.copiers| { assert CopierIs(s, i) && Tries(s, i); } else { NextRangeHasNone(s, i); }
  }

  lemma {:induction false} AnswerKeeps(maxInflight: nat, s: State, told: Stage, t: State)
    requires Enabled(maxInflight, s, Answer(told)) && t == Apply(maxInflight, s, Answer(told)) && Inv(s)
    ensures Inv(t)
  {
    var f := s.flight.value;
    forall i | 0 <= i < |t.copiers| ensures CopierIs(t, i) && Tries(t, i) {
      AnswerKeepsOthers(maxInflight, s, told, t, i);
    }
    forall j | 0 <= j < |t.jobs| ensures JobIs(t, j) {
      assert JobIs(s, j);
      if f.range < |s.copiers| { assert CopierIs(s, f.range); }
    }
  }

  lemma {:induction false} PhaseKeeps(s: State, t: State)
    requires Inv(s) && t.copiers == s.copiers && t.jobs == s.jobs && t.flight == s.flight
    requires t.phase == s.phase || s.flight.None? || !Working(t.phase)
    ensures Inv(t)
  {
    forall i | 0 <= i < |t.copiers| ensures CopierIs(t, i) && Tries(t, i) {
      assert CopierIs(s, i) && Tries(s, i);
      assert JobsOf(t, i) == JobsOf(s, i);
    }
    forall j | 0 <= j < |t.jobs| ensures JobIs(t, j) { assert JobIs(s, j); }
  }

  lemma {:induction false} StepKeeps(maxInflight: nat, s: State, step: Step)
    requires Enabled(maxInflight, s, step) && Inv(s)
    ensures Inv(Apply(maxInflight, s, step))
  {
    var t := Apply(maxInflight, s, step);
    match step
    case Server(j, to) => ServerKeeps(maxInflight, s, j, to, t);
    case Poll(i, told) => PollKeeps(maxInflight, s, i, told, t);
    case Launch(heavy) => LaunchKeeps(maxInflight, s, heavy, t);
    case Relaunch(i) => RelaunchKeeps(maxInflight, s, i, t);
    case Create(actual) => CreateKeeps(maxInflight, s, actual, t);
    case Answer(told) => AnswerKeeps(maxInflight, s, told, t);
    case _ => PhaseKeeps(s, t);
  }

  /** The answer to a restart that did not wait for the room a first start would have
      waited for: one more copier counts as running. */
  predicate BlockedRestart(maxInflight: nat, s: State, step: Step) {
    step.Answer? && s.flight.Some? && s.flight.value.range < |s.copiers| && !Terminal(step.told)
    && Blocked(maxInflight, s.copiers, s.flight.value.heavy)
  }

  /** From within the caps, a step leaves them exactly when it is such an answer. */
  lemma {:induction false} CapsBreakIff(maxInflight: nat, s: State, step: Step)
    requires Enabled(maxInflight, s, step) && WithinCaps(maxInflight, s.copiers)
    requires FlightIs(s) && Roomy(maxInflight, s)
    ensures WithinCaps(maxInflight, Apply(maxInflight, s, step).copiers) <==> !BlockedRestart(maxInflight, s, step)
  {
    var t := Apply(maxInflight, s, step);
    match step
    case Poll(i, told) => ActiveSet(s.copiers, i, s.copiers[i].(seen := told));
    case Relaunch(i) => ActiveSet(s.copiers, i, t.copiers[i]);
    case Answer(told) =>
      var f := s.flight.value;
      if f.range == |s.copiers| { ActivePush(s.copiers, Copier(f.job.value, f.heavy, 1, told)); }
      else { ActiveSet(s.copiers, f.range, t.copiers[f.range]); }
    case _ =>
  }

  lemma {:induction false} StepKeepsRoom(maxInflight: nat, s: State, step: Step)
    requires Enabled(maxInflight, s, step) && Inv(s) && Roomy(maxInflight, s)
    ensures Roomy(maxInflight, Apply(maxInflight, s, step))
  {
  }

  lemma {:induction false} StepKeepsCaps(maxInflight: nat, s: State, step: Step)
    requires Enabled(maxInflight, s, step) && Inv(s) && Capped(maxInflight, s)
    ensures Capped(maxInflight, Apply(maxInflight, s, step))
  {
    StepKeepsRoom(maxInflight, s, step);
    if Apply(maxInflight, s, step).phase.Listing? { CapsBreakIff(maxInflight, s, step); }
  }

  lemma {:induction false} RunKeeps(maxInflight: nat, s: State, steps: seq<Step>)
    requires Valid(maxInflight, s, steps) && Inv(s) && Capped(maxInflight, s)
    ensures var t := Run(maxInflight, s, steps); Inv(t) && Capped(maxInflight, t)
    decreases |steps|
  {
    if steps != [] {
      StepKeeps(maxInflight, s, steps[0]);
      StepKeepsCaps(maxInflight, s, steps[0]);
      RunKeeps(maxInflight, Apply(maxInflight, s, steps[0]), steps[1..]);
    }
  }

  lemma {:induction false} ReachableInv(maxInflight: nat, s: State)
    requires Reachable(maxInflight, s)
    ensures Inv(s) && Capped(maxInflight, s)
  {
    var steps :| Valid(maxInflight, START, steps) && Run(maxInflight, START, steps) == s;
    RunKeeps(maxInflight, START, steps);
  }

  // ----- what really runs -----

  ghost function LiveJobs(s: State): set<nat> { set j: nat | j < |s.jobs| && !Terminal(s.jobs[j].stage) }

  ghost function LiveHeavyJobs(s: State): set<nat> {
    set j: nat | j < |s.jobs| && !Terminal(s.jobs[j].stage) && s.jobs[j].heavy
  }

  lemma {:induction false} CountedAtMostActive(copiers: seq<Copier>)
    ensures |CountedJobs(copiers, false)| <= Active(copiers)
    ensures |CountedJobs(copiers, true)| <= ActiveHeavy(copiers)
  {
    if copiers == [] {
      assert CountedJobs(copiers, false) == {} && CountedJobs(copiers, true) == {};
    } else {
      var n := |copiers| - 1;
      CountedAtMostActive(copiers[..n]);
      CountedPush(copiers, false);
      CountedPush(copiers, true);
    }
  }

  lemma {:induction false} CountedPush(copiers: seq<Copier>, heavyOnly: bool)
    requires copiers != []
    ensures var n := |copiers| - 1;
            CountedJobs(copiers, heavyOnly) == CountedJobs(copiers[..n], heavyOnly)
              + (if Running(copiers[n]) && (heavyOnly ==> copiers[n].heavy) then {copiers[n].job} else {})
  {
    var n := |copiers| - 1;
    forall j | j in CountedJobs(copiers[..n], heavyOnly) ensures j in CountedJobs(copiers, heavyOnly) {
      var i :| 0 <= i < n && Running(copiers[..n][i]) && (heavyOnly ==> copiers[..n][i].heavy)
        && copiers[..n][i].job == j;
      assert copiers[i].job == j;
    }
    forall j | j in CountedJobs(copiers, heavyOnly)
      ensures j in CountedJobs(copiers[..n], heavyOnly)
              || (j == copiers[n].job && Running(copiers[n]) && (heavyOnly ==> copiers[n].heavy))
    {
      var i :| 0 <= i < |copiers| && Running(copiers[i]) && (heavyOnly ==> copiers[i].heavy) && copiers[i].job == j;
      if i < n { assert copiers[..n][i].job == j; }
    }
  }

  /** The job of the start in flight, if the server made one and it runs. */
  ghost function Flying(s: State): set<nat> {
    set j: nat | j < |s.jobs| && IsFlight(s, j) && !Terminal(s.jobs[j].stage)
  }

  /** What runs is what the planner counts, and the job in flight. */
  lemma {:induction false} LiveAreCounted(s: State)
    requires Inv(s)
    ensures LiveJobs(s) <= CountedJobs(s.copiers, false) + Flying(s) && Flying(s) <= LiveJobs(s)
    ensures LiveHeavyJobs(s) <=
            CountedJobs(s.copiers, true) + if s.flight.Some? && s.flight.value.heavy then Flying(s) else {}
    ensures CountedJobs(s.copiers, false) !! Flying(s)
  {
    forall j | j in LiveJobs(s) && j !in Flying(s)
      ensures j in CountedJobs(s.copiers, false) && (s.jobs[j].heavy ==> j in CountedJobs(s.copiers, true))
    {
      assert JobIs(s, j);
      assert CopierIs(s, s.jobs[j].range) && s.copiers[s.jobs[j].range].job == j;
    }
  }

  lemma {:induction false} FlyingIsOne(s: State)
    ensures |Flying(s)| <= One(s.flight.Some? && s.flight.value.job.Some?)
  {
    if s.flight.Some? && s.flight.value.job.Some? {
      SubsetCard(Flying(s), {s.flight.value.job.value});
    } else {
      assert Flying(s) == {};
    }
  }

  /** What the planner counts, with the start in flight, is never less than what
      runs. */
  lemma {:induction false} LiveAtMostCounted(s: State)
    requires Inv(s)
    ensures |LiveJobs(s)| <= Active(s.copiers) + One(s.flight.Some? && s.flight.value.job.Some?)
    ensures |LiveHeavyJobs(s)| <=
            ActiveHeavy(s.copiers) + One(s.flight.Some? && s.flight.value.job.Some? && s.flight.value.heavy)
  {
    LiveAreCounted(s);
    FlyingIsOne(s);
    CountedAtMostActive(s.copiers);
    var heavy := if s.flight.Some? && s.flight.value.heavy then Flying(s) else {};
    SubsetCard(LiveJobs(s), CountedJobs(s.copiers, false) + Flying(s));
    SubsetCard(LiveHeavyJobs(s), CountedJobs(s.copiers, true) + heavy);
    assert |CountedJobs(s.copiers, true) + heavy| <= |CountedJobs(s.copiers, true)| + |heavy|;
  }

  /** While the planner lists, whatever the job server does and however late its
      answers are, with a start in flight or not: no more than `max(1, max_inflight)`
      jobs run, and no more than two of them are commit-heavy. */
  lemma {:induction false} CapsHoldWhileListing(maxInflight: nat, s: State)
    requires Reachable(maxInflight, s) && s.phase.Listing?
    ensures |LiveJobs(s)| <= (if maxInflight == 0 then 1 else maxInflight) && |LiveHeavyJobs(s)| <= 2
  {
    ReachableInv(maxInflight, s);
    LiveAtMostCounted(s);
  }

  /** In the whole run a range has at most one job that runs, it is the one the
      planner follows or the one in flight, and at most three jobs ever. */
  lemma {:induction false} OneJobPerRange(maxInflight: nat, s: State, j: nat, k: nat)
    requires Reachable(maxInflight, s) && j in LiveJobs(s) && k in LiveJobs(s) && s.jobs[j].range == s.jobs[k].range
    ensures var i := s.jobs[j].range;
            j == k && (IsFlight(s, j) || (i < |s.copiers| && s.copiers[i].job == j))
            && |JobsOf(s, i)| <= 3
  {
    ReachableInv(maxInflight, s);
    var i := s.jobs[j].range;
    assert JobIs(s, j) && JobIs(s, k);
    if i < |s.copiers| { assert CopierIs(s, i) && Tries(s, i); } else { NextRangeHasNone(s, i); }
  }

  /** A range has a job once it is in the plan, or its first start is in flight, and
      never more than three. */
  lemma {:induction false} AtMostThreeAttempts(maxInflight: nat, s: State, i: nat)
    requires Reachable(maxInflight, s)
    ensures |JobsOf(s, i)| <= 3
    ensures i < |s.copiers| || (exists j :: j in JobsOf(s, i) && IsFlight(s, j)) <==> JobsOf(s, i) != {}
  {
    ReachableInv(maxInflight, s);
    if i < |s.copiers| {
      assert Tries(s, i);
      assert JobsOf(s, i) != {};
    } else {
      NextRangeHasNone(s, i);
      if j :| j in JobsOf(s, i) { assert IsFlight(s, j); }
    }
  }

  // ----- cancels -----

  /** Once the planner has ended, what still runs without a cancel from it is the job
      in flight. */
  ghost predicate Swept(s: State) {
    if s.phase.Ended? then s.canceled <= CountedJobs(s.copiers, false) && LiveJobs(s) - s.canceled == Flying(s)
    else s.canceled == {}
  }

  lemma {:induction false} NothingLeftRuns(s: State)
    requires Inv(s) && Idle(s) && forall i :: 0 <= i < |s.copiers| ==> Terminal(s.copiers[i].seen)
    ensures LiveJobs(s) == {}
  {
    forall j: nat | j < |s.jobs| ensures Terminal(s.jobs[j].stage) {
      assert JobIs(s, j);
      assert CopierIs(s, s.jobs[j].range);
    }
  }

  lemma {:induction false} ServerKeepsSwept(maxInflight: nat, s: State, j: nat, to: Stage, t: State)
    requires Enabled(maxInflight, s, Server(j, to)) && t == Apply(maxInflight, s, Server(j, to)) && Swept(s)
    ensures Swept(t)
  {
    var gone := if Terminal(to) then {j} else {};
    assert LiveJobs(t) == LiveJobs(s) - gone && Flying(t) == Flying(s) - gone;
  }

  lemma {:induction false} CreateKeepsSwept(maxInflight: nat, s: State, actual: Stage, t: State)
    requires Enabled(maxInflight, s, Create(actual)) && t == Apply(maxInflight, s, Create(actual)) && Inv(s) && Swept(s)
    ensures Swept(t)
  {
    var born := if Terminal(actual) then {} else {|s.jobs|};
    assert LiveJobs(t) == LiveJobs(s) + born && Flying(t) == born && Flying(s) == {};
    forall j | j in CountedJobs(s.copiers, false) ensures j < |s.jobs| {
      var i :| 0 <= i < |s.copiers| && s.copiers[i].job == j;
      assert CopierIs(s, i);
    }
  }

  lemma {:induction false} StepKeepsSwept(maxInflight: nat, s: State, step: Step)
    requires Enabled(maxInflight, s, step) && Inv(s) && Swept(s)
    ensures Swept(Apply(maxInflight, s, step))
  {
    var t := Apply(maxInflight, s, step);
    match step
    case Server(j, to) => ServerKeepsSwept(maxInflight, s, j, to, t);
    case Create(actual) => CreateKeepsSwept(maxInflight, s, actual, t);
    case CancelAll =>
      LiveAreCounted(s);
      assert LiveJobs(t) == LiveJobs(s) && Flying(t) == Flying(s);
    case EndMonitoring =>
      forall i | 0 <= i < |s.copiers| ensures Terminal(s.copiers[i].seen) { assert !Pending(s.copiers[i]); }
      NothingLeftRuns(s);
      assert LiveJobs(t) == LiveJobs(s) && Flying(t) == {};
    case _ =>
  }

  lemma {:induction false} RunKeepsSwept(maxInflight: nat, s: State, steps: seq<Step>)
    requires Valid(maxInflight, s, steps) && Inv(s) && Swept(s)
    ensures Swept(Run(maxInflight, s, steps))
    decreases |steps|
  {
    if steps != [] {
      StepKeeps(maxInflight, s, steps[0]);
      StepKeepsSwept(maxInflight, s, steps[0]);
      RunKeepsSwept(maxInflight, Apply(maxInflight, s, steps[0]), steps[1..]);
    }
  }

  /** What a planner that has ended leaves behind, in every state after its end, by a
      verdict, a failed start or a stop signal: the jobs that still run and were sent
      no cancel are exactly the one of the start that was in flight, if the server
      made it one and it runs. */
  lemma {:induction false} StopMissesOnlyTheFlight(maxInflight: nat, s: State)
    requires Reachable(maxInflight, s) && s.phase.Ended?
    ensures LiveJobs(s) - s.canceled == Flying(s) && |Flying(s)| <= 1
  {
    var steps :| Valid(maxInflight, START, steps) && Run(maxInflight, START, steps) == s;
    RunKeepsSwept(maxInflight, START, steps);
    FlyingIsOne(s);
  }

  // ----- ended is ended -----

  /** Jobs keep their range, and a terminal stage for ever. */
  ghost predicate Later(s: State, t: State) {
    && |s.jobs| <= |t.jobs|
    && forall j :: 0 <= j < |s.jobs| ==>
         t.jobs[j].range == s.jobs[j].range && (Terminal(s.jobs[j].stage) ==> t.jobs[j].stage == s.jobs[j].stage)
  }

  lemma {:induction false} RunIsLater(maxInflight: nat, s: State, steps: seq<Step>)
    requires Valid(maxInflight, s, steps)
    ensures Later(s, Run(maxInflight, s, steps))
    decreases |steps|
  {
    if steps != [] { RunIsLater(maxInflight, Apply(maxInflight, s, steps[0]), steps[1..]); }
  }

  /** A range is started again only after its job failed. Once a job of a range
      was canceled (or completed, or deleted), that job stays the range's last
      one in every continuation: nobody's cancel is undone. */
  lemma {:induction false} EndedRangesStayEnded(maxInflight: nat, s: State, steps: seq<Step>, j: nat)
    requires Reachable(maxInflight, s) && Valid(maxInflight, s, steps) && j < |s.jobs|
    requires Terminal(s.jobs[j].stage) && s.jobs[j].stage != Error
    ensures var t, i := Run(maxInflight, s, steps), s.jobs[j].range;
            && j < |t.jobs| && t.jobs[j] == s.jobs[j].(heavy := t.jobs[j].heavy)
            && (IsFlight(t, j) || (i < |t.copiers| && t.copiers[i].job == j))
            && forall k :: k in JobsOf(t, i) && k != j ==> t.jobs[k].stage == Error
  {
    ReachableInv(maxInflight, s);
    RunKeeps(maxInflight, s, steps);
    RunIsLater(maxInflight, s, steps);
    var t, i := Run(maxInflight, s, steps), s.jobs[j].range;
    assert JobIs(t, j);
    forall k | k in JobsOf(t, i) && k != j ensures t.jobs[k].stage == Error {
      assert JobIs(t, k);
      if i < |t.copiers| { assert CopierIs(t, i); }
    }
  }
}
