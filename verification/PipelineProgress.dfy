/** The upload pipeline without faults: it always gets to its good end. */
module PipelineProgress {
  import opened Pipeline
  import opened PipelineResults

  /** No step of the run is a fault. */
  ghost predicate FaultFree(c: Config, s: State, steps: seq<Step>)
    requires Valid(c, s, steps)
    decreases |steps|
  {
    steps == [] || (!Fault(s, steps[0]) && FaultFree(c, Apply(c, s, steps[0]), steps[1..]))
  }

  /** Nothing has gone wrong so far. */
  ghost predicate Healthy(s: State) {
    && !s.driver.Aborted?
    && (forall i :: 0 <= i < |s.files| ==> !s.files[i].status.Failed?)
    && (forall k :: 0 <= k < |s.commits| ==> !s.commits[k].phase.Broken?)
  }

  lemma {:induction false} DriverStaysHealthy(c: Config, s: State, step: Step)
    requires Healthy(s) && Enabled(c, s, step) && !Fault(s, step)
    requires step.Receive? || step.Close? || step.Open? || step.JoinUpload? || step.SpawnCommit? || step.Exit?
    ensures Healthy(Apply(c, s, step))
  {
  }

  lemma {:induction false} TaskStaysHealthy(c: Config, s: State, step: Step)
    requires Healthy(s) && Enabled(c, s, step) && !Fault(s, step)
    requires step.Retry? || step.Skip? || step.Push? || step.CountDone? || step.Finalize? || step.Post?
             || step.JoinCommit?
    ensures Healthy(Apply(c, s, step))
  {
  }

  lemma {:induction false} StaysHealthy(c: Config, s: State, steps: seq<Step>)
    requires Healthy(s) && Valid(c, s, steps) && FaultFree(c, s, steps)
    ensures Healthy(Run(c, s, steps))
    decreases |steps|
  {
    if steps != [] {
      var step := steps[0];
      if step.Receive? || step.Close? || step.Open? || step.JoinUpload? || step.SpawnCommit? || step.Exit? {
        DriverStaysHealthy(c, s, step);
      } else {
        TaskStaysHealthy(c, s, step);
      }
      StaysHealthy(c, Apply(c, s, step), steps[1..]);
    }
  }

  /** A run without faults never aborts; and once nothing but a fault could follow, it
      is over and well: the driver has finished, and each object is one confirmed op,
      or was gone from the source. */
  lemma {:induction false} EveryObjectIsCommitted(c: Config, objects: seq<nat>, steps: seq<Step>)
    requires Sane(c) && Valid(c, Start(objects), steps) && FaultFree(c, Start(objects), steps)
    ensures !Run(c, Start(objects), steps).driver.Aborted?
    ensures var s := Run(c, Start(objects), steps);
            (forall step :: Enabled(c, s, step) ==> Fault(s, step)) ==>
              && s.driver.Finished? && s.sessions == map[] && |s.files| == |objects|
              && s.committed == s.filesDone == |s.landed|
              && forall i :: 0 <= i < |objects| ==>
                   s.files[i].size == objects[i] && (s.files[i].status.Skipped? || i in s.landed)
  {
    var s := Run(c, Start(objects), steps);
    StaysHealthy(c, Start(objects), steps);
    if forall step :: Enabled(c, s, step) ==> Fault(s, step) {
      if Alive(s) { var step := SomeStepIsEnabled(c, objects, s); }
      FinishedMeansCommitted(c, objects, s);
    }
  }
}
