/** The copier fleet against the job server, as a step system. The server's
    stages move on their own; the planner only knows what its polls reported,
    and a poll may be out of date. A start is a request and an answer, and the
    planner can stop or die between them: then the server has a job, or will have
    one, that the planner does not know of. */
module Fleet {
  import opened Wrappers

  /** A job's stage. `Live`: any stage that is not terminal. */
  datatype Stage = Live(name: string) | Completed | Error | Canceled | Deleted

  /** A job at the server, with its actual stage. Jobs are numbered by launch. */
  datatype Job = Job(range: nat, heavy: bool, stage: Stage)

  /** A range's copier as the planner knows it: its last job, and the stage it
      last saw. */
  datatype Copier = Copier(job: nat, heavy: bool, attempts: nat, seen: Stage)

  /** A start that was sent and is not answered: its range, and its job once the
      server made one. */
  datatype Start = Start(range: nat, heavy: bool, job: Option<nat>)

  /** `Stopping`: a start failed or a stop signal came, and the cancels are not
      sent yet. */
  datatype Phase = Listing | Monitoring | Stopping | Ended

  /** `canceled`: the jobs the planner sent a cancel to. `flight`: the start in
      flight; after a stop it is one the planner never hears of again. */
  datatype State = State(copiers: seq<Copier>, jobs: seq<Job>, phase: Phase, canceled: set<nat>, flight: Option<Start>)

  datatype Step =
    | Server(j: nat, to: Stage)         // a job's actual stage moves
    | Poll(i: nat, told: Stage)         // an answer about copier i's job arrives
    | Launch(heavy: bool)               // the listing closes a range: its start is sent
    | Relaunch(i: nat)                  // a start of copier i is sent again
    | Create(actual: Stage)             // the server makes the job of the start in flight
    | Answer(told: Stage)               // its id and a stage reach the planner
    | EndListing
    | Stop                              // a start failed, or a stop signal came
    | CancelAll                         // a cancel to each copier not seen to end, all at once
    | EndMonitoring

  const MAX_COPIER_ATTEMPTS: nat := 3
  const MAX_INFLIGHT_SMALL_FILE_COPIERS: nat := 2

  predicate Terminal(st: Stage) { !st.Live? }

  predicate Retryable(st: Stage) { st.Error? }

  /** A terminal stage never changes, so an answer that reports one is right; an
      answer that reports a live stage may be late. */
  predicate Honest(actual: Stage, told: Stage) { Terminal(told) ==> told == actual }

  function Cap(maxInflight: nat): nat { if maxInflight == 0 then 1 else maxInflight }

  predicate Running(x: Copier) { !Terminal(x.seen) }

  function Active(copiers: seq<Copier>): nat {
    if copiers == [] then 0
    else Active(copiers[..|copiers| - 1]) + if Running(copiers[|copiers| - 1]) then 1 else 0
  }

  function ActiveHeavy(copiers: seq<Copier>): nat {
    if copiers == [] then 0
    else ActiveHeavy(copiers[..|copiers| - 1])
         + if copiers[|copiers| - 1].heavy && Running(copiers[|copiers| - 1]) then 1 else 0
  }

  predicate Blocked(maxInflight: nat, copiers: seq<Copier>, heavy: bool) {
    Active(copiers) >= Cap(maxInflight) || (heavy && ActiveHeavy(copiers) >= MAX_INFLIGHT_SMALL_FILE_COPIERS)
  }

  /** Not seen to end; and commit-heavy, if only those are asked for. */
  predicate Busy(x: Copier, heavyOnly: bool) { x.seen.Live? && (heavyOnly ==> x.heavy) }

  /** The copiers that were not seen to end: all of them, or the commit-heavy ones. */
  ghost function RunningOnes(copiers: seq<Copier>, heavyOnly: bool): set<nat> {
    set i: nat | i < |copiers| && Busy(copiers[i], heavyOnly)
  }

  /** One more may run: fewer than `max_inflight` do (none, when that is 0), and fewer
      than two commit-heavy ones if it is one of those. */
  ghost predicate Room(maxInflight: nat, copiers: seq<Copier>, heavy: bool) {
    && |RunningOnes(copiers, false)| < (if maxInflight == 0 then 1 else maxInflight)
    && (heavy ==> |RunningOnes(copiers, true)| < 2)
  }

  lemma {:induction false} RunningNext(copiers: seq<Copier>, heavyOnly: bool)
    requires copiers != []
    ensures var n := |copiers| - 1;
            |RunningOnes(copiers, heavyOnly)| == |RunningOnes(copiers[..n], heavyOnly)|
              + if Busy(copiers[n], heavyOnly) then 1 else 0
  {
    var n := |copiers| - 1;
    var was, now := RunningOnes(copiers[..n], heavyOnly), RunningOnes(copiers, heavyOnly);
    if Busy(copiers[n], heavyOnly) {
      assert now == was + {n} && n !in was;
    } else {
      assert now == was;
    }
  }

  lemma {:induction false} ActiveIs(copiers: seq<Copier>)
    ensures Active(copiers) == |RunningOnes(copiers, false)| && ActiveHeavy(copiers) == |RunningOnes(copiers, true)|
  {
    if copiers == [] {
      assert RunningOnes(copiers, false) == {} && RunningOnes(copiers, true) == {};
    } else {
      ActiveIs(copiers[..|copiers| - 1]);
      RunningNext(copiers, false);
      RunningNext(copiers, true);
    }
  }

  lemma {:induction false} RoomIff(maxInflight: nat, copiers: seq<Copier>, heavy: bool)
    ensures Room(maxInflight, copiers, heavy) <==> !Blocked(maxInflight, copiers, heavy)
  {
    ActiveIs(copiers);
  }

  /** The jobs the planner counts as running. */
  function CountedJobs(copiers: seq<Copier>, heavyOnly: bool): set<nat> {
    set i | 0 <= i < |copiers| && Running(copiers[i]) && (heavyOnly ==> copiers[i].heavy) :: copiers[i].job
  }

  predicate Working(phase: Phase) { phase.Listing? || phase.Monitoring? }

  predicate Respawnable(x: Copier) { Retryable(x.seen) && x.attempts < MAX_COPIER_ATTEMPTS }

  /** Still running, or to be started again. */
  predicate Pending(x: Copier) { !Terminal(x.seen) || Respawnable(x) }

  /** The planner waits for no answer to a start. */
  predicate Idle(s: State) { s.flight.None? }

  predicate Enabled(maxInflight: nat, s: State, step: Step) {
    match step
    case Server(j, _) => j < |s.jobs| && !Terminal(s.jobs[j].stage)
    case Poll(i, told) =>
      Working(s.phase) && Idle(s) && i < |s.copiers| && Running(s.copiers[i])
      && s.copiers[i].job < |s.jobs| && Honest(s.jobs[s.copiers[i].job].stage, told)
    case Launch(heavy) => s.phase.Listing? && Idle(s) && !Blocked(maxInflight, s.copiers, heavy)
    case Relaunch(i) => s.phase.Monitoring? && Idle(s) && i < |s.copiers| && Respawnable(s.copiers[i])
    case Create(_) => s.flight.Some? && s.flight.value.job.None?
    case Answer(told) =>
      Working(s.phase) && s.flight.Some? && s.flight.value.job.Some? && s.flight.value.job.value < |s.jobs|
      && s.flight.value.range <= |s.copiers| && Honest(s.jobs[s.flight.value.job.value].stage, told)
    case EndListing => s.phase.Listing? && Idle(s)
    case Stop => Working(s.phase)
    case CancelAll => s.phase.Stopping?
    case EndMonitoring =>
      s.phase.Monitoring? && Idle(s) && forall i :: 0 <= i < |s.copiers| ==> !Pending(s.copiers[i])
  }

  /** The copiers once the start `f`, of job `j`, is answered. */
  function Followed(copiers: seq<Copier>, f: Start, j: nat, told: Stage): seq<Copier>
    requires f.range <= |copiers|
  {
    if f.range == |copiers| then copiers + [Copier(j, f.heavy, 1, told)]
    else copiers[f.range := copiers[f.range].(job := j, seen := told)]
  }

  function Apply(maxInflight: nat, s: State, step: Step): State
    requires Enabled(maxInflight, s, step)
  {
    match step
    case Server(j, to) => s.(jobs := s.jobs[j := s.jobs[j].(stage := to)])
    case Poll(i, told) => s.(copiers := s.copiers[i := s.copiers[i].(seen := told)])
    case Launch(heavy) => s.(flight := Some(Start(|s.copiers|, heavy, None)))
    case Relaunch(i) =>
      var x := s.copiers[i];
      s.(copiers := s.copiers[i := x.(attempts := x.attempts + 1)], flight := Some(Start(i, x.heavy, None)))
    case Create(actual) =>
      var f := s.flight.value;
      s.(jobs := s.jobs + [Job(f.range, f.heavy, actual)], flight := Some(f.(job := Some(|s.jobs|))))
    case Answer(told) =>
      var f := s.flight.value;
      s.(copiers := Followed(s.copiers, f, f.job.value, told), flight := None)
    case EndListing => s.(phase := Monitoring)
    case Stop => s.(phase := Stopping)
    case CancelAll => s.(phase := Ended, canceled := CountedJobs(s.copiers, false))
    case EndMonitoring => s.(phase := Ended)
  }

  const START := State([], [], Listing, {}, None)

  ghost predicate Valid(maxInflight: nat, s: State, steps: seq<Step>)
    decreases |steps|
  {
    steps == [] ||
    (Enabled(maxInflight, s, steps[0]) && Valid(maxInflight, Apply(maxInflight, s, steps[0]), steps[1..]))
  }

  ghost function Run(maxInflight: nat, s: State, steps: seq<Step>): State
    requires Valid(maxInflight, s, steps)
    decreases |steps|
  {
    if steps == [] then s else Run(maxInflight, Apply(maxInflight, s, steps[0]), steps[1..])
  }

  ghost predicate Reachable(maxInflight: nat, s: State) {
    exists steps :: Valid(maxInflight, START, steps) && Run(maxInflight, START, steps) == s
  }

  // ----- runs -----

  lemma {:induction false} RunSnoc(maxInflight: nat, s: State, steps: seq<Step>, step: Step)
    requires Valid(maxInflight, s, steps) && Enabled(maxInflight, Run(maxInflight, s, steps), step)
    ensures Valid(maxInflight, s, steps + [step])
    ensures Run(maxInflight, s, steps + [step]) == Apply(maxInflight, Run(maxInflight, s, steps), step)
    decreases |steps|
  {
    if steps == [] {
      assert [step][1..] == [];
    } else {
      assert (steps + [step])[1..] == steps[1..] + [step];
      RunSnoc(maxInflight, Apply(maxInflight, s, steps[0]), steps[1..], step);
    }
  }

  lemma {:induction false} ReachableStep(maxInflight: nat, s: State, step: Step)
    requires Reachable(maxInflight, s) && Enabled(maxInflight, s, step)
    ensures Reachable(maxInflight, Apply(maxInflight, s, step))
  {
    var steps :| Valid(maxInflight, START, steps) && Run(maxInflight, START, steps) == s;
    RunSnoc(maxInflight, START, steps, step);
  }

  lemma {:induction false} ReachableStart(maxInflight: nat)
    ensures Reachable(maxInflight, START)
  {
    assert Valid(maxInflight, START, []) && Run(maxInflight, START, []) == START;
  }
}
