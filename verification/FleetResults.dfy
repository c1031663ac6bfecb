/** How a fleet ends: what bounds the monitoring, and what the planner's exit
    says about the jobs. */
module FleetResults {
  import opened Wrappers
  import opened Fleet
  import opened FleetSafety

  // ----- the end of the monitoring -----

  function Left(x: Copier): nat {
    2 * (if x.attempts < MAX_COPIER_ATTEMPTS then MAX_COPIER_ATTEMPTS - x.attempts else 0) + if Running(x) then 1 else 0
  }

  /** What the monitoring can still see happen: attempts left, and running jobs. */
  function Work(copiers: seq<Copier>): nat {
    if copiers == [] then 0 else Work(copiers[..|copiers| - 1]) + Left(copiers[|copiers| - 1])
  }

  lemma {:induction false} WorkSet(copiers: seq<Copier>, i: nat, x: Copier)
    requires i < |copiers|
    ensures Work(copiers[i := x]) + Left(copiers[i]) == Work(copiers) + Left(x)
  {
    var n := |copiers| - 1;
    if i < n {
      WorkSet(copiers[..n], i, x);
      assert copiers[i := x][..n] == copiers[..n][i := x];
    } else {
      assert copiers[i := x][..n] == copiers[..n];
    }
  }

  lemma {:induction false} WorkBound(copiers: seq<Copier>)
    requires forall i :: 0 <= i < |copiers| ==> copiers[i].attempts >= 1
    ensures Work(copiers) <= 5 * |copiers|
  {
    if copiers != [] { WorkBound(copiers[..|copiers| - 1]); }
  }

  /** The same of the whole monitoring: a start in flight is still to be answered. */
  function MonitorWork(s: State): nat { Work(s.copiers) + One(s.flight.Some?) }

  /** A poll that sees a job end, or a new start: all else is waiting. */
  predicate Progress(step: Step) { (step.Poll? && Terminal(step.told)) || step.Relaunch? }

  lemma {:induction false} MonitorStep(maxInflight: nat, s: State, step: Step)
    requires Inv(s) && s.phase.Monitoring? && Enabled(maxInflight, s, step) && !step.Stop? && !step.EndMonitoring?
    ensures var t := Apply(maxInflight, s, step);
            && t.phase.Monitoring? && |t.copiers| == |s.copiers|
            && MonitorWork(t) + (if Progress(step) then 1 else 0) <= MonitorWork(s)
  {
    var t := Apply(maxInflight, s, step);
    match step
    case Poll(i, told) => WorkSet(s.copiers, i, t.copiers[i]);
    case Relaunch(i) => WorkSet(s.copiers, i, t.copiers[i]);
    case Answer(told) => WorkSet(s.copiers, s.flight.value.range, t.copiers[s.flight.value.range]);
    case _ =>
  }

  function ProgressIn(steps: seq<Step>): nat {
    if steps == [] then 0 else (if Progress(steps[0]) then 1 else 0) + ProgressIn(steps[1..])
  }

  /** The monitoring is bounded: in any schedule it sees jobs end and starts new
      ones at most as often as its measure says, five times per range and once more
      if a start was in flight. */
  lemma {:induction false} MonitoringIsBounded(maxInflight: nat, s: State, steps: seq<Step>)
    requires Inv(s) && s.phase.Monitoring? && Valid(maxInflight, s, steps)
    requires forall k :: 0 <= k < |steps| ==> !steps[k].Stop? && !steps[k].EndMonitoring?
    ensures ProgressIn(steps) + MonitorWork(Run(maxInflight, s, steps)) <= MonitorWork(s)
    ensures MonitorWork(s) <= 5 * |s.copiers| + One(s.flight.Some?)
    decreases |steps|
  {
    forall i | 0 <= i < |s.copiers| ensures s.copiers[i].attempts >= 1 { assert Tries(s, i); }
    WorkBound(s.copiers);
    if steps != [] {
      StepKeeps(maxInflight, s, steps[0]);
      MonitorStep(maxInflight, s, steps[0]);
      assert forall k :: 0 <= k < |steps[1..]| ==> steps[1..][k] == steps[k + 1];
      MonitoringIsBounded(maxInflight, Apply(maxInflight, s, steps[0]), steps[1..]);
    }
  }

  /** The monitoring is over, or can make progress, or waits for a job that really
      runs, or for the answer to a start. */
  lemma {:induction false} MonitorWaitsOnlyForJobs(maxInflight: nat, s: State)
    requires Reachable(maxInflight, s) && s.phase.Monitoring?
    ensures Enabled(maxInflight, s, EndMonitoring)
            || (exists step :: Progress(step) && Enabled(maxInflight, s, step))
            || LiveJobs(s) != {} || s.flight.Some?
  {
    ReachableInv(maxInflight, s);
    if s.flight.Some? {
    } else if i :| 0 <= i < |s.copiers| && Pending(s.copiers[i]) {
      assert CopierIs(s, i);
      if Respawnable(s.copiers[i]) {
        var step := Relaunch(i);
        assert Progress(step) && Enabled(maxInflight, s, step);
      } else if Terminal(s.jobs[s.copiers[i].job].stage) {
        var step := Poll(i, s.jobs[s.copiers[i].job].stage);
        assert Progress(step) && Enabled(maxInflight, s, step);
      } else {
        assert s.copiers[i].job in LiveJobs(s);
      }
    }
  }

  // ----- the verdict -----

  datatype Failure = CopiersFailed(count: nat) | CopiersCanceled(count: nat) | CheckFailed | CheckError

  /** What the destination check answered: a report, or an error. */
  datatype Check = Report(ok: bool) | Unreadable

  function Failed(copiers: seq<Copier>): nat {
    if copiers == [] then 0
    else
      var x := copiers[|copiers| - 1];
      Failed(copiers[..|copiers| - 1]) + if Retryable(x.seen) && x.attempts >= MAX_COPIER_ATTEMPTS then 1 else 0
  }

  function CanceledCount(copiers: seq<Copier>): nat {
    if copiers == [] then 0
    else CanceledCount(copiers[..|copiers| - 1]) + if copiers[|copiers| - 1].seen.Canceled? then 1 else 0
  }

  /** The exit of the monitoring; the check runs only over a clean fleet. */
  function Verdict(copiers: seq<Copier>, verify: bool, check: Check): Result<(), Failure> {
    var failed, canceled := Failed(copiers), CanceledCount(copiers);
    if failed > 0 then Err(CopiersFailed(failed))
    else if canceled > 0 then Err(CopiersCanceled(canceled))
    else if !verify then Ok(())
    else
      match check
      case Report(ok) => if ok then Ok(()) else Err(CheckFailed)
      case Unreadable => Err(CheckError)
  }

  lemma {:induction false} NoneFailed(copiers: seq<Copier>)
    ensures Failed(copiers) == 0 <==>
            forall i :: 0 <= i < |copiers| ==>
              !(Retryable(copiers[i].seen) && copiers[i].attempts >= MAX_COPIER_ATTEMPTS)
  {
    if copiers != [] { NoneFailed(copiers[..|copiers| - 1]); }
  }

  lemma {:induction false} NoneCanceled(copiers: seq<Copier>)
    ensures CanceledCount(copiers) == 0 <==> forall i :: 0 <= i < |copiers| ==> !copiers[i].seen.Canceled?
  {
    if copiers != [] { NoneCanceled(copiers[..|copiers| - 1]); }
  }

  /** The copiers whose job was last seen in this stage. */
  ghost function EndedIn(copiers: seq<Copier>, stage: Stage): set<nat> {
    set i: nat | i < |copiers| && copiers[i].seen == stage
  }

  lemma {:induction false} CanceledIs(copiers: seq<Copier>)
    ensures CanceledCount(copiers) == |EndedIn(copiers, Canceled)|
  {
    if copiers == [] {
      assert EndedIn(copiers, Canceled) == {};
    } else {
      var n := |copiers| - 1;
      CanceledIs(copiers[..n]);
      assert EndedIn(copiers, Canceled)
             == EndedIn(copiers[..n], Canceled) + if copiers[n].seen == Canceled then {n} else {};
    }
  }

  lemma {:induction false} FailedIs(copiers: seq<Copier>)
    requires forall i :: 0 <= i < |copiers| && copiers[i].seen == Error ==> copiers[i].attempts >= MAX_COPIER_ATTEMPTS
    ensures Failed(copiers) == |EndedIn(copiers, Error)|
  {
    if copiers == [] {
      assert EndedIn(copiers, Error) == {};
    } else {
      var n := |copiers| - 1;
      FailedIs(copiers[..n]);
      assert EndedIn(copiers, Error) == EndedIn(copiers[..n], Error) + if copiers[n].seen == Error then {n} else {};
    }
  }

  /** The range's job has really ended, a failed one as the third. */
  ghost predicate HasEnded(s: State, i: nat)
    requires i < |s.copiers|
  {
    var x := s.copiers[i];
    && x.job < |s.jobs| && s.jobs[x.job].stage == x.seen && !x.seen.Live?
    && (x.seen.Error? ==> x.attempts == |JobsOf(s, i)| == 3)
  }

  lemma {:induction false} AllHaveEnded(maxInflight: nat, s: State)
    requires Inv(s) && Enabled(maxInflight, s, EndMonitoring)
    ensures forall i :: 0 <= i < |s.copiers| ==> HasEnded(s, i)
    ensures LiveJobs(s) == {}
  {
    forall i | 0 <= i < |s.copiers| ensures HasEnded(s, i) {
      assert CopierIs(s, i) && Tries(s, i) && !Pending(s.copiers[i]);
    }
    forall j: nat | j < |s.jobs| ensures Terminal(s.jobs[j].stage) {
      assert JobIs(s, j);
      assert HasEnded(s, s.jobs[j].range);
    }
  }

  /** The exit counts the failed copiers, or else the canceled ones. */
  lemma {:induction false} VerdictCounts(copiers: seq<Copier>, verify: bool, check: Check)
    requires forall i :: 0 <= i < |copiers| ==>
               !copiers[i].seen.Live? && (copiers[i].seen.Error? ==> copiers[i].attempts == 3)
    ensures match Verdict(copiers, verify, check)
            case Err(CopiersFailed(n)) => n == |EndedIn(copiers, Error)| > 0
            case Err(CopiersCanceled(n)) => n == |EndedIn(copiers, Canceled)| > 0 && EndedIn(copiers, Error) == {}
            case Err(_) =>
              EndedIn(copiers, Error) == EndedIn(copiers, Canceled) == {} && verify && check != Report(true)
            case Ok(_) =>
              && (forall i :: 0 <= i < |copiers| ==> copiers[i].seen.Completed? || copiers[i].seen.Deleted?)
              && (verify ==> check == Report(true))
  {
    FailedIs(copiers);
    CanceledIs(copiers);
    forall i | 0 <= i < |copiers| && EndedIn(copiers, Error) == EndedIn(copiers, Canceled) == {}
      ensures copiers[i].seen.Completed? || copiers[i].seen.Deleted?
    {
      assert i !in EndedIn(copiers, Error) && i !in EndedIn(copiers, Canceled);
    }
  }

  /** At the end of the monitoring every range's job has really ended, a failed
      one after three attempts; and the planner exits Ok exactly when each range's
      last job really completed, or was deleted, and the check, if there is one,
      found the destination whole. If it does not, it says how many ranges failed, or,
      if none did, how many were canceled. */
  lemma {:induction false} VerdictIsExact(maxInflight: nat, s: State, verify: bool, check: Check)
    requires Reachable(maxInflight, s) && Enabled(maxInflight, s, EndMonitoring)
    ensures (forall i :: 0 <= i < |s.copiers| ==> HasEnded(s, i)) && LiveJobs(s) == {}
    ensures match Verdict(s.copiers, verify, check)
            case Err(CopiersFailed(n)) => n == |EndedIn(s.copiers, Error)| > 0
            case Err(CopiersCanceled(n)) => n == |EndedIn(s.copiers, Canceled)| > 0 && EndedIn(s.copiers, Error) == {}
            case _ => EndedIn(s.copiers, Error) == EndedIn(s.copiers, Canceled) == {}
    ensures Verdict(s.copiers, verify, check).Ok? <==>
            (forall i :: 0 <= i < |s.copiers| ==> s.copiers[i].seen.Completed? || s.copiers[i].seen.Deleted?)
            && (verify ==> check == Report(true))
  {
    ReachableInv(maxInflight, s);
    AllHaveEnded(maxInflight, s);
    forall i | 0 <= i < |s.copiers|
      ensures !s.copiers[i].seen.Live? && (s.copiers[i].seen.Error? ==> s.copiers[i].attempts == 3)
    { assert HasEnded(s, i); }
    VerdictCounts(s.copiers, verify, check);
    if j :| j in EndedIn(s.copiers, Error) { assert s.copiers[j].seen == Error; }
    if j :| j in EndedIn(s.copiers, Canceled) { assert s.copiers[j].seen == Canceled; }
  }

  /** The first copier was started, and runs. */
  lemma {:induction false} OneStarted() returns (s: State)
    ensures Reachable(1, s)
    ensures s == State([Copier(0, false, 1, Live("RUNNING"))], [Job(0, false, Live("RUNNING"))], Listing, {}, None)
  {
    ReachableStart(1);
    ReachableStep(1, START, Launch(false));
    var s1 := Apply(1, START, Launch(false));
    ReachableStep(1, s1, Create(Live("RUNNING")));
    var s2 := Apply(1, s1, Create(Live("RUNNING")));
    ReachableStep(1, s2, Answer(Live("RUNNING")));
    s := Apply(1, s2, Answer(Live("RUNNING")));
  }

  /** A deleted job counts as neither failed nor canceled: without the check, a
      planner whose only copier was deleted exits Ok. */
  lemma {:induction false} DeletedRangeExitsOk()
    ensures exists s :: Reachable(1, s) && Enabled(1, s, EndMonitoring)
                        && |s.jobs| == 1 && s.jobs[0].stage == Deleted
                        && Verdict(s.copiers, false, Unreadable) == Ok(())
  {
    var s1 := OneStarted();
    ReachableStep(1, s1, Server(0, Deleted));
    var s2 := Apply(1, s1, Server(0, Deleted));
    ReachableStep(1, s2, EndListing);
    var s3 := Apply(1, s2, EndListing);
    ReachableStep(1, s3, Poll(0, Deleted));
    var s4 := Apply(1, s3, Poll(0, Deleted));
    assert s4.copiers == [Copier(0, false, 1, Deleted)];
    NoneFailed(s4.copiers);
    NoneCanceled(s4.copiers);
  }
}
