/** The in-flight caps beyond the listing: what breaks them while the planner
    monitors, exactly. */
module FleetCaps {
  import opened Wrappers
  import opened Fleet
  import opened FleetSafety

  // ----- the planner's count -----

  /** Every state of a schedule is within the caps. */
  ghost predicate AlwaysWithin(maxInflight: nat, s: State, steps: seq<Step>)
    requires Valid(maxInflight, s, steps)
    decreases |steps|
  {
    && WithinCaps(maxInflight, s.copiers)
    && (steps == [] || AlwaysWithin(maxInflight, Apply(maxInflight, s, steps[0]), steps[1..]))
  }

  /** No restart of a schedule is counted where there is no room for one. */
  ghost predicate NoBlockedRestart(maxInflight: nat, s: State, steps: seq<Step>)
    requires Valid(maxInflight, s, steps)
    decreases |steps|
  {
    steps == [] ||
    (!BlockedRestart(maxInflight, s, steps[0]) &&
     NoBlockedRestart(maxInflight, Apply(maxInflight, s, steps[0]), steps[1..]))
  }

  /** Over whole schedules, listing and monitoring: the caps hold throughout
      exactly when no failed copier comes to run again at a moment when a new one
      would have had to wait. */
  lemma {:induction false} CapsHoldIff(maxInflight: nat, s: State, steps: seq<Step>)
    requires Inv(s) && Roomy(maxInflight, s) && Valid(maxInflight, s, steps) && WithinCaps(maxInflight, s.copiers)
    ensures AlwaysWithin(maxInflight, s, steps) <==> NoBlockedRestart(maxInflight, s, steps)
    decreases |steps|
  {
    if steps != [] {
      var t := Apply(maxInflight, s, steps[0]);
      CapsBreakIff(maxInflight, s, steps[0]);
      StepKeeps(maxInflight, s, steps[0]);
      StepKeepsRoom(maxInflight, s, steps[0]);
      if WithinCaps(maxInflight, t.copiers) { CapsHoldIff(maxInflight, t, steps[1..]); }
    }
  }

  /** A restart that is sent with no room for it. */
  predicate BlockedRelaunch(maxInflight: nat, s: State, step: Step) {
    step.Relaunch? && step.i < |s.copiers| && Blocked(maxInflight, s.copiers, s.copiers[step.i].heavy)
  }

  ghost predicate NoBlockedRelaunch(maxInflight: nat, s: State, steps: seq<Step>)
    requires Valid(maxInflight, s, steps)
    decreases |steps|
  {
    steps == [] ||
    (!BlockedRelaunch(maxInflight, s, steps[0]) &&
     NoBlockedRelaunch(maxInflight, Apply(maxInflight, s, steps[0]), steps[1..]))
  }

  /** Room for whatever start is in flight. */
  ghost predicate RoomForFlight(maxInflight: nat, s: State) {
    && WithinCaps(maxInflight, s.copiers)
    && (s.flight.Some? ==> !Blocked(maxInflight, s.copiers, s.flight.value.heavy))
  }

  lemma {:induction false} RelaunchKeepsRoom(maxInflight: nat, s: State, step: Step)
    requires Enabled(maxInflight, s, step) && FlightIs(s) && RoomForFlight(maxInflight, s)
    requires !BlockedRelaunch(maxInflight, s, step)
    ensures RoomForFlight(maxInflight, Apply(maxInflight, s, step))
  {
    CapsBreakIff(maxInflight, s, step);
    if step.Relaunch? { ActiveSet(s.copiers, step.i, Apply(maxInflight, s, step).copiers[step.i]); }
  }

  lemma {:induction false} RunKeepsRoom(maxInflight: nat, s: State, steps: seq<Step>)
    requires Valid(maxInflight, s, steps) && Inv(s) && RoomForFlight(maxInflight, s)
    requires NoBlockedRelaunch(maxInflight, s, steps)
    ensures RoomForFlight(maxInflight, Run(maxInflight, s, steps)) && Inv(Run(maxInflight, s, steps))
    decreases |steps|
  {
    if steps != [] {
      StepKeeps(maxInflight, s, steps[0]);
      RelaunchKeepsRoom(maxInflight, s, steps[0]);
      RunKeepsRoom(maxInflight, Apply(maxInflight, s, steps[0]), steps[1..]);
    }
  }

  /** When restarts are only sent where there is room, the jobs that really run, the
      one in flight among them, stay within the caps. */
  lemma {:induction false} LiveJobsWithinCaps(maxInflight: nat, steps: seq<Step>)
    requires Valid(maxInflight, START, steps) && NoBlockedRelaunch(maxInflight, START, steps)
    ensures var s := Run(maxInflight, START, steps);
            |LiveJobs(s)| <= (if maxInflight == 0 then 1 else maxInflight) && |LiveHeavyJobs(s)| <= 2
  {
    RunKeepsRoom(maxInflight, START, steps);
    LiveAtMostCounted(Run(maxInflight, START, steps));
  }

  // ----- what really runs -----

  ghost predicate LiveWithin(maxInflight: nat, s: State) {
    |LiveJobs(s)| <= (if maxInflight == 0 then 1 else maxInflight) && |LiveHeavyJobs(s)| <= 2
  }

  /** The server makes the job of a restart, and it runs, with as many jobs running as
      may be. */
  ghost predicate Overfills(maxInflight: nat, s: State, step: Step) {
    step.Create? && s.flight.Some? && s.flight.value.range < |s.copiers| && !Terminal(step.actual)
    && (|LiveJobs(s)| >= (if maxInflight == 0 then 1 else maxInflight)
        || (s.flight.value.heavy && |LiveHeavyJobs(s)| >= 2))
  }

  lemma {:induction false} CreateLives(maxInflight: nat, s: State, actual: Stage, t: State)
    requires Enabled(maxInflight, s, Create(actual)) && t == Apply(maxInflight, s, Create(actual))
    ensures |LiveJobs(t)| == |LiveJobs(s)| + One(!Terminal(actual))
  {
    assert LiveJobs(t) == LiveJobs(s) + if Terminal(actual) then {} else {|s.jobs|};
  }

  lemma {:induction false} CreateHeavyLives(maxInflight: nat, s: State, actual: Stage, t: State)
    requires Enabled(maxInflight, s, Create(actual)) && t == Apply(maxInflight, s, Create(actual))
    ensures |LiveHeavyJobs(t)| == |LiveHeavyJobs(s)| + One(s.flight.value.heavy && !Terminal(actual))
  {
    var heavy := s.flight.value.heavy;
    assert LiveHeavyJobs(t) == LiveHeavyJobs(s) + if heavy && !Terminal(actual) then {|s.jobs|} else {};
  }

  lemma {:induction false} OthersAddNoLife(maxInflight: nat, s: State, step: Step, t: State)
    requires Enabled(maxInflight, s, step) && t == Apply(maxInflight, s, step) && !step.Create?
    ensures LiveJobs(t) <= LiveJobs(s) && LiveHeavyJobs(t) <= LiveHeavyJobs(s)
  {
  }

  /** The same for the jobs that really run: from within the caps a step leaves
      them exactly when it is a restart that overfills. */
  lemma {:induction false} LiveCapsBreakIff(maxInflight: nat, s: State, step: Step)
    requires Reachable(maxInflight, s) && Enabled(maxInflight, s, step) && LiveWithin(maxInflight, s)
    ensures LiveWithin(maxInflight, Apply(maxInflight, s, step)) <==> !Overfills(maxInflight, s, step)
  {
    var t := Apply(maxInflight, s, step);
    if step.Create? {
      ReachableInv(maxInflight, s);
      LiveAtMostCounted(s);
      CreateLives(maxInflight, s, step.actual, t);
      CreateHeavyLives(maxInflight, s, step.actual, t);
    } else {
      OthersAddNoLife(maxInflight, s, step, t);
      Sequences.SubsetCard(LiveJobs(t), LiveJobs(s));
      Sequences.SubsetCard(LiveHeavyJobs(t), LiveHeavyJobs(s));
    }
  }

  ghost predicate AlwaysLiveWithin(maxInflight: nat, s: State, steps: seq<Step>)
    requires Valid(maxInflight, s, steps)
    decreases |steps|
  {
    LiveWithin(maxInflight, s) &&
    (steps == [] || AlwaysLiveWithin(maxInflight, Apply(maxInflight, s, steps[0]), steps[1..]))
  }

  ghost predicate NeverOverfills(maxInflight: nat, s: State, steps: seq<Step>)
    requires Valid(maxInflight, s, steps)
    decreases |steps|
  {
    steps == [] ||
    (!Overfills(maxInflight, s, steps[0]) && NeverOverfills(maxInflight, Apply(maxInflight, s, steps[0]), steps[1..]))
  }

  /** Over whole schedules: what really runs stays within the caps throughout
      exactly when no restart overfills. */
  lemma {:induction false} LiveCapsHoldIff(maxInflight: nat, s: State, steps: seq<Step>)
    requires Reachable(maxInflight, s) && Valid(maxInflight, s, steps) && LiveWithin(maxInflight, s)
    ensures AlwaysLiveWithin(maxInflight, s, steps) <==> NeverOverfills(maxInflight, s, steps)
    decreases |steps|
  {
    if steps != [] {
      var t := Apply(maxInflight, s, steps[0]);
      ReachableStep(maxInflight, s, steps[0]);
      LiveCapsBreakIff(maxInflight, s, steps[0]);
      if LiveWithin(maxInflight, t) { LiveCapsHoldIff(maxInflight, t, steps[1..]); }
    }
  }

  // ----- it happens -----

  const RUNNING := Live("RUNNING")

  /** The first copier failed, and the planner saw it. */
  const ONE_FAILED := State([Copier(0, false, 1, Error)], [Job(0, false, Error)], Listing, {}, None)

  /** The second one runs, and the listing is over. */
  const ONE_RUNS :=
    State([Copier(0, false, 1, Error), Copier(1, false, 1, RUNNING)],
          [Job(0, false, Error), Job(1, false, RUNNING)], Monitoring, {}, None)

  /** The start of a copier: request, job, answer. */
  lemma {:induction false} Started(s: State, step: Step) returns (t: State)
    requires Reachable(1, s) && s.phase != Ended && Enabled(1, s, step) && (step.Launch? || step.Relaunch?)
    ensures var u := Apply(1, s, step);
            && u.flight.Some? && u.flight.value.range <= |u.copiers|
            && Reachable(1, t)
            && t == u.(copiers := Followed(u.copiers, u.flight.value, |s.jobs|, RUNNING), flight := None,
                       jobs := s.jobs + [Job(u.flight.value.range, u.flight.value.heavy, RUNNING)])
  {
    ReachableStep(1, s, step);
    var u := Apply(1, s, step);
    ReachableStep(1, u, Create(RUNNING));
    var v := Apply(1, u, Create(RUNNING));
    ReachableStep(1, v, Answer(RUNNING));
    t := Apply(1, v, Answer(RUNNING));
  }

  lemma {:induction false} OneFails()
    ensures Reachable(1, ONE_FAILED)
  {
    ReachableStart(1);
    var s1 := Started(START, Launch(false));
    ReachableStep(1, s1, Server(0, Error));
    var s2 := Apply(1, s1, Server(0, Error));
    ReachableStep(1, s2, Poll(0, Error));
    assert Apply(1, s2, Poll(0, Error)) == ONE_FAILED;
  }

  lemma {:induction false} OneRuns()
    ensures Reachable(1, ONE_RUNS)
  {
    OneFails();
    assert Active(ONE_FAILED.copiers) == 0 by { assert ONE_FAILED.copiers[..0] == []; }
    var t := Started(ONE_FAILED, Launch(false));
    ReachableStep(1, t, EndListing);
    assert Apply(1, t, EndListing) == ONE_RUNS;
  }

  /** A cap of one, and two jobs running: the first copier failed while the planner
      listed, the second took its place, and the monitoring starts the first one
      again beside it. */
  lemma {:induction false} CapsBreakWhileMonitoring()
    ensures exists s :: Reachable(1, s) && s.phase.Monitoring? && |LiveJobs(s)| > 1
  {
    OneRuns();
    var t := Started(ONE_RUNS, Relaunch(0));
    assert LiveJobs(t) == {1, 2};
  }
}
