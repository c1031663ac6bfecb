/** The upload pipeline on top of the settlement of its batches: what it means that
    an op has landed. */
module Delivery {
  import opened Wrappers
  import opened Pipeline
  import opened PipelineSafety
  import opened PipelineDriver
  import opened PipelineResults
  import Settlement

  /** Whoever answers the /batch calls of a session. */
  type Servers = nat -> Settlement.Server

  /** The op that an upload pushes. */
  type Naming = nat -> Settlement.BatchOp

  function BatchOf(name: Naming, ops: seq<nat>): (r: seq<Settlement.BatchOp>)
    ensures |r| == |ops| && forall k :: 0 <= k < |ops| ==> r[k] == name(ops[k])
  {
    seq(|ops|, k requires 0 <= k < |ops| => name(ops[k]))
  }

  /** The verdict of the /batch call that commits these ops. */
  function Verdict(servers: Servers, name: Naming, sid: nat, ops: seq<nat>): Result<nat, Settlement.Failure> {
    if ops == [] then Ok(0) else Settlement.Settle(servers(sid), BatchOf(name, ops), |ops|, 0)
  }

  /** Its exchanges with the server. */
  ghost function History(servers: Servers, name: Naming, sid: nat, ops: seq<nat>): seq<Settlement.Exchange> {
    if ops == [] then [] else Settlement.Exchanges(servers(sid), BatchOf(name, ops), |ops|, 0)
  }

  /** What a commit is told is what its /batch call settled. */
  ghost predicate Settles(servers: Servers, name: Naming, s: State, step: Step) {
    step.Post? && step.k < |s.commits| ==>
      var r := Verdict(servers, name, s.commits[step.k].sid, s.commits[step.k].ops);
      step.confirmed == if r.Ok? then Some(r.value) else None
  }

  ghost predicate AllSettle(c: Config, servers: Servers, name: Naming, s: State, steps: seq<Step>)
    requires Valid(c, s, steps)
    decreases |steps|
  {
    steps == [] ||
    (Settles(servers, name, s, steps[0]) && AllSettle(c, servers, name, Apply(c, s, steps[0]), steps[1..]))
  }

  /** A batch call that ends well confirms as many ops as it was given. */
  lemma {:induction false} OkConfirmsAll(servers: Servers, name: Naming, sid: nat, ops: seq<nat>)
    requires Verdict(servers, name, sid, ops).Ok?
    ensures Verdict(servers, name, sid, ops).value == |ops|
  {
    if ops != [] {
      var batch := BatchOf(name, ops);
      Settlement.SettleIsJustified(servers(sid), batch, [], batch);
    }
  }

  // ----- moments of a run -----

  lemma {:induction false} SplitRun(c: Config, s: State, steps: seq<Step>, n: nat)
    requires Valid(c, s, steps) && n <= |steps|
    ensures Valid(c, s, steps[..n]) && Valid(c, Run(c, s, steps[..n]), steps[n..])
    ensures Run(c, Run(c, s, steps[..n]), steps[n..]) == Run(c, s, steps)
    decreases n
  {
    if n == 0 {
      assert steps[..0] == [] && steps[0..] == steps;
    } else {
      SplitRun(c, Apply(c, s, steps[0]), steps[1..], n - 1);
      assert steps[..n][1..] == steps[1..][..n - 1] && steps[1..][n - 1..] == steps[n..];
    }
  }

  /** Step `n` of the run is the answer to the call that commits `batch`, the ops of
      session `sid`, and it confirms them all. */
  ghost predicate CommitsAt(c: Config, s: State, steps: seq<Step>, n: nat, sid: nat, batch: seq<nat>) {
    && n < |steps| && Valid(c, s, steps[..n]) && steps[n].Post? && steps[n].confirmed == Some(|batch|)
    && var mid := Run(c, s, steps[..n]);
       steps[n].k < |mid.commits| && mid.commits[steps[n].k] == Commit(sid, batch, Posting)
  }

  lemma {:induction false} LandsByPost(c: Config, s: State, step: Step, i: nat)
    requires Enabled(c, s, step) && i in Apply(c, s, step).landed && i !in s.landed
    ensures step.Post? && step.k < |s.commits| && s.commits[step.k].phase.Posting?
    ensures i in s.commits[step.k].ops && step.confirmed == Some(|s.commits[step.k].ops|)
  {
  }

  /** Whatever landed in a run landed at one of its steps. */
  lemma {:induction false} FindCommit(c: Config, s: State, steps: seq<Step>, i: nat)
    returns (n: nat, sid: nat, batch: seq<nat>)
    requires Valid(c, s, steps) && i in Run(c, s, steps).landed && i !in s.landed
    ensures CommitsAt(c, s, steps, n, sid, batch) && i in batch
    decreases |steps|
  {
    var step, t := steps[0], Apply(c, s, steps[0]);
    if i in t.landed {
      LandsByPost(c, s, step, i);
      n, sid, batch := 0, s.commits[step.k].sid, s.commits[step.k].ops;
      assert steps[..0] == [];
    } else {
      n, sid, batch := FindCommit(c, t, steps[1..], i);
      n := n + 1;
      assert steps[..n][1..] == steps[1..][..n - 1];
    }
  }

  lemma {:induction false} SettlesAt(c: Config, servers: Servers, name: Naming, s: State, steps: seq<Step>, n: nat)
    requires Valid(c, s, steps) && AllSettle(c, servers, name, s, steps) && n < |steps| && Valid(c, s, steps[..n])
    ensures Settles(servers, name, Run(c, s, steps[..n]), steps[n])
    decreases n
  {
    if n == 0 {
      assert steps[..0] == [];
    } else {
      assert steps[..n][1..] == steps[1..][..n - 1];
      SettlesAt(c, servers, name, Apply(c, s, steps[0]), steps[1..], n - 1);
    }
  }

  // ----- a committed session stays as it is -----

  /** No file is given to the session any more, and none of its uploads goes on. */
  ghost predicate Over(s: State, sid: nat) {
    sid !in s.sessions && (sid < s.cur || (sid == s.cur && !s.rxOpen))
  }

  lemma {:induction false} OpenLeavesItsFiles(c: Config, s: State, ok: bool, sid: nat)
    requires Uploads(c, s) && Enabled(c, s, Open(ok)) && Over(s, sid)
    ensures var t := Apply(c, s, Open(ok));
            && Over(t, sid) && |s.files| <= |t.files|
            && (forall i :: 0 <= i < |s.files| ==> t.files[i] == s.files[i])
            && forall i :: |s.files| <= i < |t.files| ==> t.files[i].sid != sid
  {
  }

  lemma {:induction false} DriverLeavesFiles(c: Config, s: State, step: Step, sid: nat)
    requires Uploads(c, s) && Enabled(c, s, step) && OfDriver(step) && !step.Open? && Over(s, sid)
    ensures Over(Apply(c, s, step), sid) && Apply(c, s, step).files == s.files
  {
  }

  lemma {:induction false} TasksLeaveItsFiles(c: Config, s: State, step: Step, sid: nat)
    requires Uploads(c, s) && Enabled(c, s, step) && !OfDriver(step) && Over(s, sid)
    ensures var t := Apply(c, s, step);
            && Over(t, sid) && |s.files| == |t.files|
            && forall i :: 0 <= i < |s.files| ==>
                 t.files[i].sid == s.files[i].sid && (s.files[i].sid == sid ==> t.files[i] == s.files[i])
  {
  }

  lemma {:induction false} StepLeavesItsOps(c: Config, s: State, step: Step, sid: nat, batch: seq<nat>)
    requires Uploads(c, s) && Enabled(c, s, step) && Over(s, sid) && OpsOf(s.files, batch, sid)
    ensures var t := Apply(c, s, step); Over(t, sid) && OpsOf(t.files, batch, sid)
  {
    if step.Open? {
      OpenLeavesItsFiles(c, s, step.ok, sid);
    } else if OfDriver(step) {
      DriverLeavesFiles(c, s, step, sid);
    } else {
      TasksLeaveItsFiles(c, s, step, sid);
    }
  }

  lemma {:induction false} RunLeavesItsOps(c: Config, s: State, steps: seq<Step>, sid: nat, batch: seq<nat>)
    requires (s.driver.Aborted? || Good(c, s)) && Valid(c, s, steps) && Over(s, sid) && OpsOf(s.files, batch, sid)
    ensures OpsOf(Run(c, s, steps).files, batch, sid)
    decreases |steps|
  {
    if steps != [] {
      StepLeavesItsOps(c, s, steps[0], sid, batch);
      StepKeeps(c, s, steps[0], Apply(c, s, steps[0]));
      RunLeavesItsOps(c, Apply(c, s, steps[0]), steps[1..], sid, batch);
    }
  }

  /** A batch that a run commits is all ops of its session, for good. */
  lemma {:induction false} BatchIsItsSession(c: Config, objects: seq<nat>, steps: seq<Step>, n: nat, sid: nat,
                                             batch: seq<nat>)
    requires Sane(c) && Valid(c, Start(objects), steps) && CommitsAt(c, Start(objects), steps, n, sid, batch)
    ensures OpsOf(Run(c, Start(objects), steps).files, batch, sid)
  {
    var mid := Run(c, Start(objects), steps[..n]);
    SplitRun(c, Start(objects), steps, n);
    StartGood(c, objects);
    RunKeeps(c, Start(objects), steps[..n]);
    assert Enabled(c, mid, steps[n..][0]);
    assert CommitOk(mid, steps[n].k);
    RunLeavesItsOps(c, mid, steps[n..], sid, batch);
  }

  // ----- what landing is worth -----

  lemma {:induction false} ConfirmedOrTrusted(servers: Servers, name: Naming, sid: nat, batch: seq<nat>, i: nat)
    requires Verdict(servers, name, sid, batch).Ok? && i in batch
    ensures var log := History(servers, name, sid, batch);
            if Settlement.Trusted(servers(sid), BatchOf(name, batch))
            then exists j :: j in batch && !Settlement.Confirmed(log, name(j))
            else Settlement.Confirmed(log, name(i))
  {
    var ops := BatchOf(name, batch);
    Settlement.SettleIsJustified(servers(sid), ops, [], ops);
    assert [] + History(servers, name, sid, batch) == History(servers, name, sid, batch);
    var k :| 0 <= k < |batch| && batch[k] == i;
    assert ops[k] == name(i) && ops[k] in ops;
    if Settlement.Trusted(servers(sid), ops) {
      var op :| op in ops && !Settlement.Confirmed(History(servers, name, sid, batch), op);
      var m :| 0 <= m < |ops| && ops[m] == op;
      assert batch[m] in batch && name(batch[m]) == op;
    }
  }

  /** What landing is worth, in every run and against any servers: an op counted as
      landed went in the /batch call that step `n` of the run answers. That call
      took all ops of the op's own session, each once; and the op was there in a
      readable report that did not name it, unless the call's first answer was a 2xx
      with an unreadable body, and then some op of the batch was in none. */
  lemma {:induction false} LandedMeansConfirmed(c: Config, servers: Servers, name: Naming, objects: seq<nat>,
                                                steps: seq<Step>, i: nat) returns (n: nat, batch: seq<nat>)
    requires Sane(c) && Valid(c, Start(objects), steps) && AllSettle(c, servers, name, Start(objects), steps)
    requires i in Run(c, Start(objects), steps).landed
    ensures var s := Run(c, Start(objects), steps);
            && i in batch && i < |s.files|
            && var sid := s.files[i].sid;
               && CommitsAt(c, Start(objects), steps, n, sid, batch) && OpsOf(s.files, batch, sid)
               && var log := History(servers, name, sid, batch);
                  if Settlement.Trusted(servers(sid), BatchOf(name, batch))
                  then exists j :: j in batch && !Settlement.Confirmed(log, name(j))
                  else Settlement.Confirmed(log, name(i))
  {
    var sid;
    n, sid, batch := FindCommit(c, Start(objects), steps, i);
    BatchIsItsSession(c, objects, steps, n, sid, batch);
    SettlesAt(c, servers, name, Start(objects), steps, n);
    ConfirmedOrTrusted(servers, name, sid, batch, i);
  }

  // ----- the count -----

  lemma {:induction false} StepRejectsNothing(c: Config, servers: Servers, name: Naming, s: State, step: Step)
    requires Enabled(c, s, step) && Settles(servers, name, s, step)
    ensures Apply(c, s, step).rejected == s.rejected
  {
    if step.Post? && step.confirmed.Some? {
      OkConfirmsAll(servers, name, s.commits[step.k].sid, s.commits[step.k].ops);
    }
  }

  lemma {:induction false} RunRejectsNothing(c: Config, servers: Servers, name: Naming, s: State, steps: seq<Step>)
    requires Valid(c, s, steps) && AllSettle(c, servers, name, s, steps)
    ensures Run(c, s, steps).rejected == s.rejected
    decreases |steps|
  {
    if steps != [] {
      StepRejectsNothing(c, servers, name, s, steps[0]);
      RunRejectsNothing(c, servers, name, Apply(c, s, steps[0]), steps[1..]);
    }
  }

  /** A batch is never confirmed with a count that is not its own: that branch of the
      commit cannot be taken, and at every point of a run the confirmed count is the
      number of ops that landed. */
  lemma {:induction false} CountsAlwaysMatch(c: Config, servers: Servers, name: Naming, objects: seq<nat>,
                                             steps: seq<Step>)
    requires Sane(c) && Valid(c, Start(objects), steps) && AllSettle(c, servers, name, Start(objects), steps)
    ensures var s := Run(c, Start(objects), steps);
            !s.rejected && (!s.driver.Aborted? ==> s.committed == |s.landed|)
  {
    var s := Run(c, Start(objects), steps);
    RunRejectsNothing(c, servers, name, Start(objects), steps);
    if !s.driver.Aborted? { OpsAreConserved(c, objects, s); }
  }
}
