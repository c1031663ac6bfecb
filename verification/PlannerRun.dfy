/** The planner from its ranges to its exit: the listing half and the fleet half of one
    program, and the check at the end. */
module PlannerRun {
  import opened Wrappers
  import opened Listing
  import opened RangePlan
  import RangePartition
  import opened Fleet
  import opened FleetSafety
  import FleetResults
  import FleetPlanner
  import Verify
  import VerifyReport
  import VerifyResults
  import EndToEnd

  // ----- the fleet runs the plan -----

  /** Copier `k` is started for range `k`, with its tuning. */
  ghost predicate Follows(ranges: seq<Range>, maxInflight: nat, s: State, steps: seq<Step>)
    requires Valid(maxInflight, s, steps)
    decreases |steps|
  {
    steps == [] ||
    (&& (steps[0].Launch? ==>
           |s.copiers| < |ranges| && steps[0].heavy == ranges[|s.copiers|].tuning.commitHeavy)
     && Follows(ranges, maxInflight, Apply(maxInflight, s, steps[0]), steps[1..]))
  }

  predicate IsTuned(ranges: seq<Range>, i: nat, heavy: bool) {
    i < |ranges| && heavy == ranges[i].tuning.commitHeavy
  }

  /** Copiers, jobs and the start in flight have the tuning of their range. */
  ghost predicate Tuned(ranges: seq<Range>, s: State) {
    && (forall i :: 0 <= i < |s.copiers| ==> IsTuned(ranges, i, s.copiers[i].heavy))
    && (forall j :: 0 <= j < |s.jobs| ==> IsTuned(ranges, s.jobs[j].range, s.jobs[j].heavy))
    && (s.flight.Some? ==> IsTuned(ranges, s.flight.value.range, s.flight.value.heavy))
  }

  lemma {:induction false} StepStaysTuned(ranges: seq<Range>, maxInflight: nat, s: State, step: Step)
    requires Tuned(ranges, s) && Enabled(maxInflight, s, step)
    requires step.Launch? ==> IsTuned(ranges, |s.copiers|, step.heavy)
    ensures Tuned(ranges, Apply(maxInflight, s, step))
  {
  }

  lemma {:induction false} RunStaysTuned(ranges: seq<Range>, maxInflight: nat, s: State, steps: seq<Step>)
    requires Tuned(ranges, s) && Valid(maxInflight, s, steps) && Follows(ranges, maxInflight, s, steps)
    ensures Tuned(ranges, Run(maxInflight, s, steps))
    decreases |steps|
  {
    if steps != [] {
      StepStaysTuned(ranges, maxInflight, s, steps[0]);
      RunStaysTuned(ranges, maxInflight, Apply(maxInflight, s, steps[0]), steps[1..]);
    }
  }

  /** The objects of range `i` average at most 4 MiB. */
  ghost predicate ManySmall(objs: seq<Object>, ranges: seq<Range>, i: nat) {
    && i < |ranges| && Offset(ranges, i) <= Offset(ranges, i + 1) <= |objs|
    && SatTotal(objs[Offset(ranges, i)..Offset(ranges, i + 1)])
       < 4194305 * (Offset(ranges, i + 1) - Offset(ranges, i))
  }

  lemma {:induction false} HeavyIff(c: Config, objs: seq<Object>, ranges: seq<Range>, i: nat)
    requires PlanOf(c, objs, ranges) && i < |ranges|
    ensures ranges[i].tuning.commitHeavy <==> ManySmall(objs, ranges, i)
  {
    RangePartition.RangeAt(c, objs, ranges, i);
  }

  /** The jobs that run for ranges of many small objects. */
  ghost function SmallFileJobs(objs: seq<Object>, ranges: seq<Range>, s: State): set<nat> {
    set j | j in LiveJobs(s) && ManySmall(objs, ranges, s.jobs[j].range)
  }

  /** The commit budget, said of the plan: in a fleet that runs a plan, the jobs that
      the second cap counts are exactly those whose ranges average at most 4 MiB per
      object, and while the planner lists no more than two of these run. */
  lemma {:induction false} CommitBudgetHolds(c: Config, objs: seq<Object>, ranges: seq<Range>, maxInflight: nat,
                                             steps: seq<Step>)
    requires PlanOf(c, objs, ranges)
    requires Valid(maxInflight, START, steps) && Follows(ranges, maxInflight, START, steps)
    ensures var s := Run(maxInflight, START, steps);
            && LiveHeavyJobs(s) == SmallFileJobs(objs, ranges, s)
            && (s.phase.Listing? ==> |SmallFileJobs(objs, ranges, s)| <= 2)
  {
    var s := Run(maxInflight, START, steps);
    RunStaysTuned(ranges, maxInflight, START, steps);
    forall j | j in LiveJobs(s) ensures s.jobs[j].heavy <==> ManySmall(objs, ranges, s.jobs[j].range) {
      HeavyIff(c, objs, ranges, s.jobs[j].range);
    }
    assert LiveHeavyJobs(s) == SmallFileJobs(objs, ranges, s);
    assert Reachable(maxInflight, s);
    if s.phase.Listing? { CapsHoldWhileListing(maxInflight, s); }
  }

  // ----- the planner's methods -----

  /** The copiers are those of the first ranges, with their tuning. */
  ghost predicate Copies(ranges: seq<Range>, copiers: seq<Copier>) {
    |copiers| <= |ranges| && forall k :: 0 <= k < |copiers| ==> copiers[k].heavy == ranges[k].tuning.commitHeavy
  }

  /** How far a part of the planner got. */
  datatype Got = Through | Signaled | StartFailed | StillWaiting

  /** The planner's state for where it got. */
  ghost predicate Fits(got: Got, phase: Phase, done: Phase) {
    match got
    case Through => phase == done
    case Signaled => phase.Stopping?
    case StartFailed => phase.Stopping?
    case StillWaiting => phase == done
  }

  /** A copier for each range, as the listing closes it, until a stop signal comes, a
      start fails, or there was no room after `polls` polls. */
  method StartAll(p: FleetPlanner.Planner, ranges: seq<Range>, polls: nat) returns (got: Got)
    requires p.Valid() && p.phase.Listing? && p.copiers == []
    modifies p, p.server
    ensures p.Valid() && Copies(ranges, p.copiers) && Fits(got, p.phase, Listing)
    ensures got.Through? ==> |p.copiers| == |ranges|
    ensures got.StillWaiting? ==>
              && |p.copiers| < |ranges|
              && !Room(p.maxInflight, p.copiers, ranges[|p.copiers|].tuning.commitHeavy)
  {
    var k := 0;
    while k < |ranges|
      invariant 0 <= k == |p.copiers| <= |ranges| && p.Valid() && p.phase.Listing? && Copies(ranges, p.copiers)
    {
      var signal: bool := *;
      if signal {
        p.Signal();
        return Signaled;
      }
      ghost var was := p.copiers;
      ghost var looks, info;
      var started: bool;
      started, looks, info := p.Cut(ranges[k].tuning.commitHeavy, polls);
      RoomIff(p.maxInflight, p.copiers, ranges[k].tuning.commitHeavy);
      if !started {
        return if Blocked(p.maxInflight, p.copiers, ranges[k].tuning.commitHeavy) then StillWaiting else StartFailed;
      }
      assert FleetPlanner.SameRanges(was, p.copiers[..k]);
      assert forall i :: 0 <= i < k ==> p.copiers[i] == p.copiers[..k][i];
      k := k + 1;
    }
    got := Through;
  }

  /** Watches the fleet until every copier has ended, a stop signal comes, a restart
      fails, or copiers were still pending after `polls` polls. */
  method WatchAll(p: FleetPlanner.Planner, ranges: seq<Range>, polls: nat) returns (got: Got)
    requires p.Valid() && p.phase.Listing? && Copies(ranges, p.copiers)
    modifies p, p.server
    ensures p.Valid() && Copies(ranges, p.copiers) && Fits(got, p.phase, Monitoring) && |p.copiers| == |old(p.copiers)|
    ensures got.Through? ==> FleetPlanner.PendingCount(p.copiers) == 0
  {
    var rounds: int := *;
    var n: nat := if 0 <= rounds < polls then rounds else polls;
    ghost var looks;
    var over, failed: bool;
    over, failed, looks := p.Watch(n);
    if over { return Through; }
    if failed { return StartFailed; }
    if n < polls {
      p.Signal();
      return Signaled;
    }
    got := StillWaiting;
  }

  /** The check, if it is wanted and nothing is known to be missing, and the exit. The
      listing or the source may be unreadable. */
  method Conclude(p: FleetPlanner.Planner, plan: Verify.Plan, scope: Scope, ghost all: seq<Object>,
                  listing: seq<seq<Verify.DestFile>>, pagesOf: nat -> seq<Page>, dest: Verify.Destination,
                  gone: string -> bool, settled: bool, readable: bool)
    returns (r: Result<(), FleetResults.Failure>)
    requires p.Valid() && p.phase.Monitoring? && FleetPlanner.PendingCount(p.copiers) == 0
    modifies p`phase
    ensures p.Valid() && p.phase.Ended? && LiveJobs(p.View()) == {}
    ensures r.Ok? ==> FleetPlanner.AllDone(p.copiers) && (p.verify ==> readable)
    ensures !p.verify ==> (r.Ok? <==> FleetPlanner.AllDone(p.copiers))
    ensures var files := VerifyReport.ListedFiles(listing);
            p.verify && readable && EndToEnd.FrozenCase(plan, scope, all, files, pagesOf, dest, gone) ==>
              && (r.Ok? <==> && FleetPlanner.AllDone(p.copiers)
                             && forall i :: 0 <= i < |plan.ranges| ==>
                                  EndToEnd.Passes(plan, scope, all, files, dest, i))
              && (EndToEnd.Clean(plan, scope, all, files) ==>
                    (r.Ok? <==> FleetPlanner.AllDone(p.copiers) && EndToEnd.AllThere(plan, scope, all, dest)))
  {
    var check: FleetResults.Check := FleetResults.Unreadable;
    FleetResults.NoneFailed(p.copiers);
    FleetResults.NoneCanceled(p.copiers);
    if p.verify && readable && FleetResults.Failed(p.copiers) == 0 && FleetResults.CanceledCount(p.copiers) == 0 {
      var report := VerifyReport.Check(plan, scope, listing, pagesOf, dest, gone, settled);
      check := FleetResults.Report(report.ok);
      ghost var files := VerifyReport.ListedFiles(listing);
      if EndToEnd.FrozenCase(plan, scope, all, files, pagesOf, dest, gone) {
        EndToEnd.NoneFailedIff(plan, scope, all, files, pagesOf, dest, gone);
      }
    }
    r := p.Finish(check);
  }

  datatype Exit =
    | Exited(r: Result<(), FleetResults.Failure>)
    | Stopped(canceled: nat)      // by a signal
    | StartError(canceled: nat)
    | Waits                       // still at it after so many polls

  /** The source did not change since it was listed: the ranges cut its kept objects, up
      to the limit. */
  ghost predicate PlannedFrom(c: Config, scope: Scope, all: seq<Object>, objs: seq<Object>, ranges: seq<Range>) {
    && Ascending(all) && VerifyResults.NoDoubled(scope, all) && objs <= KeptOf(scope, all) && PlanOf(c, objs, ranges)
    && Total(objs) <= U64_MAX
  }

  lemma {:induction false} CanceledSince(before: seq<FleetPlanner.Call>, log: seq<FleetPlanner.Call>, j: nat)
    requires before <= log && FleetPlanner.IsCanceled(log[|before|..], j)
    ensures FleetPlanner.IsCanceled(log, j)
  {
    var m :| 0 <= m < |log[|before|..]| && log[|before|..][m].CancelSent? && log[|before|..][m].j == j;
    assert log[|before| + m].CancelSent? && log[|before| + m].j == j;
  }

  /** The planner over its ranges. Copier `k` runs range `k` with its tuning. However
      it goes, when the planner is through no job of its runs that it sent no cancel,
      but one whose start was in flight. And when it exits by itself, with the check
      wanted, over a source that did not change and a destination that holds nothing
      else, the exit is Ok if and only if every range completed, or was deleted, and
      every object of the plan is at the destination with its size. */
  method RunPlan(p: FleetPlanner.Planner, ranges: seq<Range>, polls: nat, ghost c: Config, scope: Scope,
                 ghost all: seq<Object>, ghost objs: seq<Object>, listing: seq<seq<Verify.DestFile>>,
                 pagesOf: nat -> seq<Page>, destPath: string, dest: Verify.Destination, gone: string -> bool,
                 settled: bool, readable: bool)
    returns (exit: Exit)
    requires p.Valid() && p.phase.Listing? && p.copiers == []
    modifies p, p.server
    ensures p.Valid() && Copies(ranges, p.copiers)
    ensures exit.Exited? ==> |p.copiers| == |ranges| && LiveJobs(p.View()) == {}
    ensures !exit.Waits? ==> p.phase.Ended? && LiveJobs(p.View()) - p.canceled == Flying(p.View())
    ensures exit.Stopped? || exit.StartError? ==>
              forall j :: j in LiveJobs(p.View()) - Flying(p.View()) ==> FleetPlanner.IsCanceled(p.server.log, j)
    ensures exit.Exited? && exit.r.Ok? ==> FleetPlanner.AllDone(p.copiers) && (p.verify ==> readable)
    ensures var plan := Verify.Plan(destPath, scope.prefix, RangePartition.PlannedAll(ranges));
            var files := VerifyReport.ListedFiles(listing);
            && exit.Exited? && p.verify && readable && PlannedFrom(c, scope, all, objs, ranges)
            && EndToEnd.FrozenCase(plan, scope, all, files, pagesOf, dest, gone)
            && EndToEnd.Clean(plan, scope, all, files) ==>
              (exit.r.Ok? <==> && FleetPlanner.AllDone(p.copiers)
                               && forall o :: o in objs ==> Verify.Exact(dest, Verify.ObjectOf(plan, o)))
  {
    var got := StartAll(p, ranges, polls);
    if got.Through? { got := WatchAll(p, ranges, polls); }
    if got.StillWaiting? { return Waits; }
    if !got.Through? {
      ghost var queue, before := [], p.server.log;
      var canceled: nat;
      canceled, queue := p.CancelActive();
      forall j | j in LiveJobs(p.View()) - Flying(p.View()) ensures FleetPlanner.IsCanceled(p.server.log, j) {
        CanceledSince(before, p.server.log, j);
      }
      return if got.Signaled? then Stopped(canceled) else StartError(canceled);
    }
    var plan := Verify.Plan(destPath, scope.prefix, RangePartition.PlannedAll(ranges));
    var r := Conclude(p, plan, scope, all, listing, pagesOf, dest, gone, settled, readable);
    if PlannedFrom(c, scope, all, objs, ranges) {
      EndToEnd.AllThereIff(c, scope, all, objs, ranges, destPath, dest);
    }
    exit := Exited(r);
  }
}
