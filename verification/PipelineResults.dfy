/** What the upload pipeline promises over whole runs. */
module PipelineResults {
  import opened Sequences
  import opened Pipeline
  import opened Wrappers
  import opened PipelineSafety
  import opened PipelineDriver

  predicate Sane(c: Config) { c.parallel >= 1 && c.chunk >= 1 }

  /** Some run over these objects leads to `s`. */
  ghost predicate Reachable(c: Config, objects: seq<nat>, s: State) {
    exists steps :: Valid(c, Start(objects), steps) && Run(c, Start(objects), steps) == s
  }

  lemma {:induction false} StartGood(c: Config, objects: seq<nat>)
    requires Sane(c)
    ensures Good(c, Start(objects))
  {
    assert SealedFiles(Start(objects)) == {};
    assert Pushing(Start(objects)) == {};
  }

  lemma {:induction false} RunKeeps(c: Config, s: State, steps: seq<Step>)
    requires s.driver.Aborted? || Good(c, s)
    requires Valid(c, s, steps)
    ensures var t := Run(c, s, steps); t.driver.Aborted? || Good(c, t)
    decreases |steps|
  {
    if steps != [] {
      StepKeeps(c, s, steps[0], Apply(c, s, steps[0]));
      RunKeeps(c, Apply(c, s, steps[0]), steps[1..]);
    }
  }

  lemma {:induction false} ReachableGood(c: Config, objects: seq<nat>, s: State)
    requires Sane(c) && Reachable(c, objects, s)
    ensures s.driver.Aborted? || Good(c, s)
  {
    var steps :| Valid(c, Start(objects), steps) && Run(c, Start(objects), steps) == s;
    StartGood(c, objects);
    RunKeeps(c, Start(objects), steps);
  }

  // ----- conservation -----

  /** At every step of every run: the ops `files_done` counts, with those just
      pushed, are the confirmed ones, those of the live sessions and those of
      the commits under way; and `committed_files` is what landed, unless a
      batch was confirmed with a count that is not its own. */
  lemma {:induction false} OpsAreConserved(c: Config, objects: seq<nat>, s: State)
    requires Sane(c) && Reachable(c, objects, s) && !s.driver.Aborted?
    ensures s.filesDone + |Pushing(s)| == |s.landed| + LiveOps(s.sessions, s.cur + 1) + CommitOps(s.commits)
    ensures !s.rejected ==> s.committed == |s.landed| && s.pendingAck + |s.landed| == |SealedFiles(s)|
  {
    ReachableGood(c, objects, s);
  }

  /** An upload pushes its op into the session it was given, while that session
      is still live: no commit has taken the session's ops, and the op is
      nowhere yet. Retries do not change the session. */
  lemma {:induction false} NoOpIsLate(c: Config, objects: seq<nat>, s: State, i: nat)
    requires Sane(c) && Reachable(c, objects, s) && !s.driver.Aborted? && Enabled(c, s, Push(i))
    ensures var sid := s.files[i].sid;
            && sid in s.sessions && i !in s.sessions[sid].ops && i !in s.landed
            && PushedOp(s, i).sessions[sid].ops == s.sessions[sid].ops + [i]
            && (forall k :: 0 <= k < |s.commits| ==> s.commits[k].sid != sid && i !in s.commits[k].ops)
  {
    ReachableGood(c, objects, s);
    PushFindsItsSession(c, s, i);
  }

  lemma {:induction false} PushFindsItsSession(c: Config, s: State, i: nat)
    requires Uploads(c, s) && Slots(c, s) && Commits(s) && Homes(s) && InTask(s, i) && s.files[i].status.Running?
    ensures var sid := s.files[i].sid;
            && sid in s.sessions && i !in s.sessions[sid].ops && i !in s.landed
            && (forall k :: 0 <= k < |s.commits| ==> s.commits[k].sid != sid && i !in s.commits[k].ops)
  {
    assert SlotOk(c, s, s.files[i].sid);
    forall k | 0 <= k < |s.commits| ensures s.commits[k].sid != s.files[i].sid && i !in s.commits[k].ops {
      CommitLacks(s, i, k);
    }
  }

  lemma {:induction false} CommitLacks(s: State, i: nat, k: nat)
    requires k < |s.commits| && CommitOk(s, k) && i < |s.files| && s.files[i].sid in s.sessions && !HasOp(s.files[i])
    ensures s.commits[k].sid != s.files[i].sid && i !in s.commits[k].ops
  {
  }

  // ----- shape -----

  ghost function SidsOf(files: seq<File>, ids: set<nat>): set<nat> {
    set i | i in ids && i < |files| :: files[i].sid
  }

  lemma {:induction false} SidsCard(files: seq<File>, ids: set<nat>)
    ensures |SidsOf(files, ids)| <= |ids|
  {
    if x :| x in ids {
      var rest := ids - {x};
      SidsCard(files, rest);
      if x < |files| {
        assert SidsOf(files, ids) == SidsOf(files, rest) + {files[x].sid};
      } else {
        assert SidsOf(files, ids) == SidsOf(files, rest);
      }
    } else {
      assert SidsOf(files, ids) == {};
    }
  }

  /** A sealed live session has an upload in flight, unless the driver commits
      it right now. */
  lemma {:induction false} SealedHasUpload(c: Config, s: State, sid: nat)
    requires sid in s.sessions && SlotOk(c, s, sid) && s.sessions[sid].sealed && !CommittingNow(s, sid)
    ensures sid in SidsOf(s.files, s.inflight)
  {
    var mine := FilesOf(s.files, sid);
    assert |mine - s.inflight| != |mine|;
    assert mine - s.inflight != mine;
    var i :| i in mine && i in s.inflight;
  }

  lemma {:induction false} LiveSessions(c: Config, s: State)
    requires Slots(c, s) && |s.inflight| <= c.parallel && (s.driver.Committing? ==> |s.inflight| < c.parallel)
    ensures |s.sessions| <= c.parallel + 1
  {
    var busy := SidsOf(s.files, s.inflight);
    var extra := if s.driver.Committing? then {s.cur, s.driver.sid} else {s.cur};
    SidsCard(s.files, s.inflight);
    forall sid | sid in s.sessions ensures sid in busy + extra {
      assert SlotOk(c, s, sid);
      if sid != s.cur && !CommittingNow(s, sid) { SealedHasUpload(c, s, sid); }
    }
    SubsetCard(s.sessions.Keys, busy + extra);
    assert |busy + extra| <= |busy| + |extra|;
  }

  /** The shape of the pipeline in every reachable state: bounded uploads,
      commits and sessions; only the current session takes files; each session
      holds at most `commit_chunk` files and had not reached `commit_bytes`
      before its last one. */
  lemma {:induction false} Shape(c: Config, objects: seq<nat>, s: State)
    requires Sane(c) && Reachable(c, objects, s) && !s.driver.Aborted?
    ensures |s.inflight| <= c.parallel && |s.commits| <= 2 && |s.sessions| <= c.parallel + 1
    ensures forall sid :: sid in s.sessions ==>
              var slot := s.sessions[sid];
              && (!slot.sealed ==> sid == s.cur)
              && 1 <= slot.given <= c.chunk && (c.commitBytes > 0 ==> slot.before < c.commitBytes)
    ensures forall sid :: sid in s.sessions && s.sessions[sid].sealed && !CommittingNow(s, sid) ==>
              sid in SidsOf(s.files, s.inflight)
  {
    ReachableGood(c, objects, s);
    LiveSessions(c, s);
    forall sid | sid in s.sessions
      ensures var slot := s.sessions[sid]; !slot.sealed ==> sid == s.cur
      ensures s.sessions[sid].sealed && !CommittingNow(s, sid) ==> sid in SidsOf(s.files, s.inflight)
      ensures 1 <= s.sessions[sid].given <= c.chunk && (c.commitBytes > 0 ==> s.sessions[sid].before < c.commitBytes)
    {
      assert SlotOk(c, s, sid);
      if s.sessions[sid].sealed && !CommittingNow(s, sid) { SealedHasUpload(c, s, sid); }
    }
  }

  // ----- attempts -----

  /** Uploads that still run are at an attempt of one to the last. */
  ghost predicate Attempts(files: seq<File>) {
    forall i :: 0 <= i < |files| && files[i].status.Running? ==> 1 <= files[i].status.attempt <= MAX_FILE_ATTEMPTS
  }

  lemma {:induction false} StepAttempts(c: Config, s: State, step: Step, t: State)
    requires Attempts(s.files) && Enabled(c, s, step) && t == Apply(c, s, step)
    ensures Attempts(t.files)
  {
    if step.Open? {
      assert t.files == s.files || t.files == s.files + [File(s.cur, s.driver.size, Running(1))];
    } else if OfDriver(step) || step.Finalize? || step.Post? {
      assert t.files == s.files;
    } else {
      assert t.files == s.files[step.i := t.files[step.i]];
    }
  }

  lemma {:induction false} RunAttempts(c: Config, s: State, steps: seq<Step>)
    requires Attempts(s.files) && Valid(c, s, steps)
    ensures Attempts(Run(c, s, steps).files)
    decreases |steps|
  {
    if steps != [] {
      StepAttempts(c, s, steps[0], Apply(c, s, steps[0]));
      RunAttempts(c, Apply(c, s, steps[0]), steps[1..]);
    }
  }

  /** An upload has four attempts: before the fourth an error that may pass leads to the
      next one, after it the upload has failed. */
  lemma {:induction false} FourAttempts(c: Config, objects: seq<nat>, s: State, i: nat)
    requires Reachable(c, objects, s) && Alive(s) && i in s.inflight && i < |s.files| && s.files[i].status.Running?
    ensures 1 <= s.files[i].status.attempt <= 4
    ensures Enabled(c, s, Fail(i)) <==> s.files[i].status.attempt == 4
    ensures Enabled(c, s, Retry(i)) <==> s.files[i].status.attempt < 4
    ensures Enabled(c, s, Retry(i)) ==>
              Apply(c, s, Retry(i)).files == s.files[i := s.files[i].(status := Running(s.files[i].status.attempt + 1))]
  {
    var steps :| Valid(c, Start(objects), steps) && Run(c, Start(objects), steps) == s;
    RunAttempts(c, Start(objects), steps);
  }

  // ----- progress -----

  /** The conditions on the `select!` branches are never all false before the
      loop ends: the driver does not run into a `select!` with no branch. */
  lemma {:induction false} SelectHasABranch(c: Config, s: State)
    requires Sane(c) && s.driver.Selecting? && !Enabled(c, s, Exit)
    ensures (s.rxOpen && |s.inflight| < c.parallel) || s.inflight != {} || s.commits != []
  {
  }

  /** What can go wrong from outside: an upload that gives up, a session that does not
      open, a commit that is not finalized, or is not confirmed with its own count. */
  predicate Fault(s: State, step: Step) {
    match step
    case Fail(_) => true
    case Panic(_) => true
    case Open(ok) => !ok
    case Finalize(_, ok) => !ok
    case Post(k, confirmed) => k < |s.commits| && confirmed != Some(|s.commits[k].ops|)
    case _ => false
  }

  lemma {:induction false} UploadMoves(c: Config, s: State, i: nat) returns (step: Step)
    requires Uploads(c, s) && Alive(s) && i in s.inflight && s.driver.Selecting?
    ensures Enabled(c, s, step) && !Fault(s, step)
  {
    match s.files[i].status
    case Running(_) => step := Push(i);
    case Pushed => step := CountDone(i);
    case _ => step := JoinUpload(i);
  }

  lemma {:induction false} CommitMoves(c: Config, s: State) returns (step: Step)
    requires Alive(s) && s.commits != []
    requires s.driver.Selecting? || (s.driver.Committing? && |s.commits| >= MAX_PENDING_COMMITS)
    ensures Enabled(c, s, step) && !Fault(s, step)
  {
    match s.commits[0].phase
    case Finalizing => step := Finalize(0, true);
    case Posting => step := Post(0, Some(|s.commits[0].ops|));
    case _ => step := JoinCommit(0);
  }

  /** No run gets stuck before the driver finishes or aborts: there is always a step
      that needs no fault. */
  lemma {:induction false} SomeStepIsEnabled(c: Config, objects: seq<nat>, s: State) returns (step: Step)
    requires Sane(c) && Reachable(c, objects, s) && Alive(s)
    ensures Enabled(c, s, step) && !Fault(s, step)
  {
    ReachableGood(c, objects, s);
    match s.driver
    case Opening(_) => step := Open(true);
    case Committing(_, _) =>
      if |s.commits| < MAX_PENDING_COMMITS { step := SpawnCommit; } else { step := CommitMoves(c, s); }
    case Selecting =>
      if i :| i in s.inflight {
        step := UploadMoves(c, s, i);
      } else if s.commits != [] {
        step := CommitMoves(c, s);
      } else if s.rxOpen {
        step := if s.incoming != [] then Receive else Close;
      } else {
        step := Exit;
      }
    case _ => step := Exit;
  }

  // ----- termination -----

  function StatusWork(st: Status): nat {
    match st
    case Running(a) => if a < MAX_FILE_ATTEMPTS then 6 + 2 * (MAX_FILE_ATTEMPTS - a) else 6
    case Pushed => 5
    case _ => 4
  }

  function FilesWork(files: seq<File>): nat {
    if files == [] then 0 else FilesWork(files[..|files| - 1]) + StatusWork(files[|files| - 1].status)
  }

  lemma {:induction false} FilesWorkSet(files: seq<File>, i: nat, x: File)
    requires i < |files|
    ensures FilesWork(files[i := x]) + StatusWork(files[i].status) == FilesWork(files) + StatusWork(x.status)
  {
    var n := |files| - 1;
    if i < n {
      FilesWorkSet(files[..n], i, x);
      assert files[i := x][..n] == files[..n][i := x];
    } else {
      assert files[i := x][..n] == files[..n];
    }
  }

  function PhaseWork(p: Phase): nat {
    match p
    case Finalizing => 4
    case Posting => 3
    case _ => 2
  }

  function CommitsWork(commits: seq<Commit>): nat {
    if commits == [] then 0 else CommitsWork(commits[..|commits| - 1]) + PhaseWork(commits[|commits| - 1].phase)
  }

  lemma {:induction false} CommitsWorkSet(cs: seq<Commit>, k: nat, x: Commit)
    requires k < |cs|
    ensures CommitsWork(cs[k := x]) + PhaseWork(cs[k].phase) == CommitsWork(cs) + PhaseWork(x.phase)
  {
    var n := |cs| - 1;
    if k < n {
      CommitsWorkSet(cs[..n], k, x);
      assert cs[k := x][..n] == cs[..n][k := x];
    } else {
      assert cs[k := x][..n] == cs[..n];
    }
  }

  lemma {:induction false} CommitsWorkGone(cs: seq<Commit>, k: nat)
    requires k < |cs|
    ensures CommitsWork(cs[..k] + cs[k + 1..]) + PhaseWork(cs[k].phase) == CommitsWork(cs)
  {
    var n := |cs| - 1;
    var rest := cs[..k] + cs[k + 1..];
    if k < n {
      CommitsWorkGone(cs[..n], k);
      assert rest[..n - 1] == cs[..n][..k] + cs[..n][k + 1..];
    } else {
      assert rest == cs[..n];
    }
  }

  function DriverWork(d: Driver): nat {
    match d
    case Selecting => 1
    case Committing(_, None) => 2
    case Committing(_, Some(_)) => 40
    case Opening(_) => 30
    case _ => 0
  }

  /** What is left to do, by weight. */
  function Work(s: State): nat {
    60 * |s.incoming| + DriverWork(s.driver) + FilesWork(s.files) + CommitsWork(s.commits)
    + 3 * |s.inflight| + 5 * |s.sessions| + (if s.rxOpen then 3 else 0)
  }

  lemma {:induction false} MapCard(m: map<nat, Slot>, sid: nat, slot: Slot)
    ensures |m[sid := slot]| == |m| + (if sid in m then 0 else 1)
    ensures sid in m ==> |m - {sid}| == |m| - 1
  {
    assert m[sid := slot].Keys == m.Keys + {sid};
    assert (m - {sid}).Keys == m.Keys - {sid};
  }

  lemma {:induction false} SealLowers(c: Config, s: State, step: Step, t: State)
    requires Enabled(c, s, step) && t == Apply(c, s, step) && (step.Receive? || step.Close?)
    ensures Work(t) < Work(s)
  {
    if s.cur in s.sessions { MapCard(s.sessions, s.cur, s.sessions[s.cur].(sealed := true)); }
    assert t.files == s.files && t.commits == s.commits && t.inflight == s.inflight;
    assert |t.sessions| == |s.sessions|;
  }

  lemma {:induction false} FilesWorkPush(files: seq<File>, x: File)
    ensures FilesWork(files + [x]) == FilesWork(files) + StatusWork(x.status)
  {
    assert (files + [x])[..|files|] == files;
  }

  lemma {:induction false} OpenIs(c: Config, s: State, ok: bool, t: State)
    requires Enabled(c, s, Open(ok)) && t == Apply(c, s, Open(ok)) && !t.driver.Aborted?
    ensures t.files == s.files + [File(s.cur, s.driver.size, Running(1))]
    ensures t.driver == Selecting && t.incoming == s.incoming
  {
  }

  lemma {:induction false} OpenIsOneMore(c: Config, s: State, ok: bool, t: State)
    requires Enabled(c, s, Open(ok)) && t == Apply(c, s, Open(ok)) && !t.driver.Aborted?
    requires forall i :: i in s.inflight ==> i < |s.files|
    ensures t.files == s.files + [File(s.cur, s.driver.size, Running(1))] && t.driver == Selecting
    ensures t.commits == s.commits && t.incoming == s.incoming && t.rxOpen == s.rxOpen
    ensures |t.inflight| == |s.inflight| + 1 && |t.sessions| <= |s.sessions| + 1
  {
    MapCard(s.sessions, s.cur, t.sessions[s.cur]);
    assert |s.files| !in s.inflight;
  }

  lemma {:induction false} OpenLowers(c: Config, s: State, ok: bool, t: State)
    requires Enabled(c, s, Open(ok)) && t == Apply(c, s, Open(ok)) && forall i :: i in s.inflight ==> i < |s.files|
    ensures Work(t) < Work(s)
  {
    if s.cur in s.sessions || ok {
      OpenIsOneMore(c, s, ok, t);
      FilesWorkPush(s.files, File(s.cur, s.driver.size, Running(1)));
    }
  }

  lemma {:induction false} JoinIsOneLess(c: Config, s: State, i: nat, t: State)
    requires Enabled(c, s, JoinUpload(i)) && t == Apply(c, s, JoinUpload(i))
    ensures t.files == s.files && t.commits == s.commits && t.incoming == s.incoming && t.rxOpen == s.rxOpen
    ensures |t.inflight| == |s.inflight| - 1 && |t.sessions| == |s.sessions| && DriverWork(t.driver) <= 2
  {
    if !t.driver.Aborted? { MapCard(s.sessions, s.files[i].sid, t.sessions[s.files[i].sid]); }
  }

  lemma {:induction false} JoinLowers(c: Config, s: State, i: nat, t: State)
    requires Enabled(c, s, JoinUpload(i)) && t == Apply(c, s, JoinUpload(i))
    ensures Work(t) < Work(s)
  {
    JoinIsOneLess(c, s, i, t);
  }

  lemma {:induction false} CommitsWorkPush(cs: seq<Commit>, x: Commit)
    ensures CommitsWork(cs + [x]) == CommitsWork(cs) + PhaseWork(x.phase)
  {
    assert (cs + [x])[..|cs|] == cs;
  }

  lemma {:induction false} SpawnLowers(c: Config, s: State, t: State)
    requires Enabled(c, s, SpawnCommit) && t == Apply(c, s, SpawnCommit)
    ensures Work(t) < Work(s)
  {
    var sid := s.driver.sid;
    var x := Commit(sid, s.sessions[sid].ops, Finalizing);
    MapCard(s.sessions, sid, NEW_SLOT);
    CommitsWorkPush(s.commits, x);
    assert t.commits == s.commits + [x] && t.sessions == s.sessions - {sid};
    assert t.files == s.files && t.inflight == s.inflight && t.incoming == s.incoming && t.rxOpen == s.rxOpen;
    assert DriverWork(t.driver) < DriverWork(s.driver);
  }

  lemma {:induction false} ReapLowers(c: Config, s: State, k: nat, t: State)
    requires Enabled(c, s, JoinCommit(k)) && t == Apply(c, s, JoinCommit(k))
    ensures Work(t) < Work(s)
  {
    CommitsWorkGone(s.commits, k);
  }

  /** Only the phase of one commit moves, forward. */
  ghost predicate Advances(s: State, k: nat, t: State) {
    && k < |s.commits| && t.files == s.files && t.sessions == s.sessions && t.inflight == s.inflight
    && t.driver == s.driver && t.incoming == s.incoming && t.rxOpen == s.rxOpen
    && exists p: Phase ::
         t.commits == s.commits[k := s.commits[k].(phase := p)] && PhaseWork(p) < PhaseWork(s.commits[k].phase)
  }

  lemma {:induction false} CommitLowers(s: State, k: nat, t: State)
    requires Advances(s, k, t)
    ensures Work(t) < Work(s)
  {
    CommitsWorkSet(s.commits, k, t.commits[k]);
  }

  lemma {:induction false} FinalizeAdvances(c: Config, s: State, k: nat, ok: bool, t: State)
    requires Enabled(c, s, Finalize(k, ok)) && t == Apply(c, s, Finalize(k, ok))
    ensures Advances(s, k, t)
  {
    assert t.commits == s.commits[k := s.commits[k].(phase := if ok then Posting else Broken)];
  }

  lemma {:induction false} PostAdvances(c: Config, s: State, k: nat, confirmed: Option<nat>, t: State)
    requires Enabled(c, s, Post(k, confirmed)) && t == Apply(c, s, Post(k, confirmed))
    ensures Advances(s, k, t)
  {
    var p := if confirmed == Some(|s.commits[k].ops|) then Landed else Broken;
    assert t.commits == s.commits[k := s.commits[k].(phase := p)];
  }

  lemma {:induction false} PushIsSameSize(c: Config, s: State, i: nat, t: State)
    requires Enabled(c, s, Push(i)) && t == Apply(c, s, Push(i))
    ensures |t.sessions| == |s.sessions| && t.files == s.files[i := s.files[i].(status := Pushed)]
    ensures t.commits == s.commits && t.inflight == s.inflight && t.driver == s.driver
    ensures t.incoming == s.incoming && t.rxOpen == s.rxOpen
  {
    if s.files[i].sid in s.sessions { MapCard(s.sessions, s.files[i].sid, t.sessions[s.files[i].sid]); }
  }

  lemma {:induction false} PushLowers(c: Config, s: State, i: nat, t: State)
    requires Enabled(c, s, Push(i)) && t == Apply(c, s, Push(i))
    ensures Work(t) < Work(s)
  {
    FilesWorkSet(s.files, i, t.files[i]);
    PushIsSameSize(c, s, i, t);
  }

  lemma {:induction false} StatusLowers(c: Config, s: State, step: Step, t: State)
    requires Enabled(c, s, step) && t == Apply(c, s, step) && (EndsAttempt(step) || step.CountDone?)
    ensures Work(t) < Work(s)
  {
    FilesWorkSet(s.files, step.i, t.files[step.i]);
  }

  lemma {:induction false} StepLowers(c: Config, s: State, step: Step, t: State)
    requires Enabled(c, s, step) && t == Apply(c, s, step) && forall i :: i in s.inflight ==> i < |s.files|
    ensures Work(t) < Work(s)
  {
    match step
    case Receive => SealLowers(c, s, step, t);
    case Close => SealLowers(c, s, step, t);
    case Open(ok) => OpenLowers(c, s, ok, t);
    case JoinUpload(i) => JoinLowers(c, s, i, t);
    case JoinCommit(k) => ReapLowers(c, s, k, t);
    case SpawnCommit => SpawnLowers(c, s, t);
    case Exit =>
    case Push(i) => PushLowers(c, s, i, t);
    case Finalize(k, ok) => FinalizeAdvances(c, s, k, ok, t); CommitLowers(s, k, t);
    case Post(k, confirmed) => PostAdvances(c, s, k, confirmed, t); CommitLowers(s, k, t);
    case _ => StatusLowers(c, s, step, t);
  }

  /** Every run is finite, with the weight of its start as a bound: after at
      most that many steps the driver has finished or aborted. */
  lemma {:induction false} RunsAreBounded(c: Config, s: State, steps: seq<Step>)
    requires (s.driver.Aborted? || Good(c, s)) && Valid(c, s, steps)
    ensures |steps| <= Work(s)
    decreases |steps|
  {
    if steps != [] {
      var t := Apply(c, s, steps[0]);
      StepKeeps(c, s, steps[0], t);
      StepLowers(c, s, steps[0], t);
      RunsAreBounded(c, t, steps[1..]);
    }
  }

  // ----- the end -----

  /** The objects that the driver has not turned into uploads yet. */
  function InHand(d: Driver): seq<nat> {
    match d
    case Opening(size) => [size]
    case Committing(_, Some(size)) => [size]
    case _ => []
  }

  /** Uploads are the objects, one each, in order. */
  ghost predicate Tracks(objects: seq<nat>, s: State) {
    s.driver.Aborted? ||
    (&& |s.files| <= |objects| && objects[|s.files|..] == InHand(s.driver) + s.incoming
     && forall i :: 0 <= i < |s.files| ==> s.files[i].size == objects[i])
  }

  lemma {:induction false} OpenTracks(c: Config, objects: seq<nat>, s: State, ok: bool, t: State)
    requires Enabled(c, s, Open(ok)) && t == Apply(c, s, Open(ok)) && Tracks(objects, s)
    ensures Tracks(objects, t)
  {
    if !t.driver.Aborted? {
      OpenIs(c, s, ok, t);
      assert objects[|s.files|] == s.driver.size;
      assert objects[|t.files|..] == objects[|s.files|..][1..] == s.incoming;
    }
  }

  lemma {:induction false} DriverTracks(c: Config, objects: seq<nat>, s: State, step: Step, t: State)
    requires Enabled(c, s, step) && t == Apply(c, s, step) && OfDriver(step) && !step.Open? && Tracks(objects, s)
    ensures Tracks(objects, t)
  {
    assert t.files == s.files;
    assert t.driver.Aborted? || InHand(t.driver) + t.incoming == InHand(s.driver) + s.incoming;
  }

  lemma {:induction false} TaskTracks(c: Config, objects: seq<nat>, s: State, step: Step, t: State)
    requires Enabled(c, s, step) && t == Apply(c, s, step) && !OfDriver(step) && Tracks(objects, s)
    ensures Tracks(objects, t)
  {
    assert t.driver == s.driver && t.incoming == s.incoming;
    assert |t.files| == |s.files| && forall i :: 0 <= i < |s.files| ==> t.files[i].size == s.files[i].size;
  }

  lemma {:induction false} StepTracks(c: Config, objects: seq<nat>, s: State, step: Step, t: State)
    requires Enabled(c, s, step) && t == Apply(c, s, step) && Tracks(objects, s)
    ensures Tracks(objects, t)
  {
    if step.Open? {
      OpenTracks(c, objects, s, step.ok, t);
    } else if OfDriver(step) {
      DriverTracks(c, objects, s, step, t);
    } else {
      TaskTracks(c, objects, s, step, t);
    }
  }

  lemma {:induction false} RunTracks(c: Config, objects: seq<nat>, s: State, steps: seq<Step>)
    requires Tracks(objects, s) && Valid(c, s, steps)
    ensures Tracks(objects, Run(c, s, steps))
    decreases |steps|
  {
    if steps != [] {
      StepTracks(c, objects, s, steps[0], Apply(c, s, steps[0]));
      RunTracks(c, objects, Apply(c, s, steps[0]), steps[1..]);
    }
  }

  lemma {:induction false} AllSessionsBusy(c: Config, s: State)
    requires Slots(c, s) && !s.rxOpen && !s.driver.Committing?
    ensures forall sid :: sid in s.sessions ==> sid in SidsOf(s.files, s.inflight)
  {
    forall sid | sid in s.sessions ensures sid in SidsOf(s.files, s.inflight) {
      assert SlotOk(c, s, sid);
      SealedHasUpload(c, s, sid);
    }
  }

  lemma {:induction false} NoSessionLeft(c: Config, s: State)
    requires Uploads(c, s) && Slots(c, s) && s.driver.Finished?
    ensures s.sessions == map[]
  {
    AllSessionsBusy(c, s);
    assert SidsOf(s.files, s.inflight) == {};
  }

  lemma {:induction false} NothingPending(s: State)
    requires s.commits == [] && s.inflight == {} && s.sessions == map[] && Conserved(s) && Homes(s)
    requires forall i :: 0 <= i < |s.files| ==> s.files[i].status.Uploaded? || s.files[i].status.Skipped?
    ensures !s.rejected && s.committed == s.filesDone == |s.landed| && NoDup(s.landed)
    ensures forall i :: i in s.landed <==> 0 <= i < |s.files| && s.files[i].status.Uploaded?
  {
    assert Pushing(s) == {};
    NoLiveOps(s.cur + 1);
    forall i | 0 <= i < |s.files| && s.files[i].status.Uploaded? ensures i in s.landed {
      assert Settled(s, s.files[i].sid);
    }
  }

  lemma {:induction false} NoLiveOps(n: nat)
    ensures LiveOps(map[], n) == 0
  {
    if n > 0 { NoLiveOps(n - 1); }
  }

  /** A copier whose upload loop returns Ok has no session left; every object it
      received is one confirmed op, or one source that was gone; the confirmed
      count equals the uploaded count, so the last check of the copier passes;
      and the files it still reports as waiting for an answer are the skipped
      ones. */
  lemma {:induction false} FinishedMeansCommitted(c: Config, objects: seq<nat>, s: State)
    requires Sane(c) && Reachable(c, objects, s) && s.driver.Finished?
    ensures s.sessions == map[] && |s.files| == |objects|
    ensures forall i :: 0 <= i < |objects| ==>
              && s.files[i].size == objects[i]
              && (s.files[i].status.Uploaded? || s.files[i].status.Skipped?)
              && (s.files[i].status.Uploaded? <==> i in s.landed)
    ensures NoDup(s.landed) && s.committed == s.filesDone == |s.landed|
    ensures s.pendingAck == |set i: nat | i < |s.files| && s.files[i].status.Skipped?|
  {
    var steps :| Valid(c, Start(objects), steps) && Run(c, Start(objects), steps) == s;
    RunTracks(c, objects, Start(objects), steps);
    ReachableGood(c, objects, s);
    NoSessionLeft(c, s);
    NothingPending(s);
    SkippedCount(s);
  }

  lemma {:induction false} SkippedCount(s: State)
    requires Conserved(s) && !s.rejected && NoDup(s.landed) && !s.rxOpen
    requires forall i :: 0 <= i < |s.files| ==>
      (s.files[i].status.Uploaded? || s.files[i].status.Skipped?) && s.files[i].sid <= s.cur
    requires forall i :: i in s.landed <==> 0 <= i < |s.files| && s.files[i].status.Uploaded?
    ensures s.pendingAck == |set i: nat | i < |s.files| && s.files[i].status.Skipped?|
  {
    var up := set i: nat | i < |s.files| && s.files[i].status.Uploaded?;
    var skipped := set i: nat | i < |s.files| && s.files[i].status.Skipped?;
    NoDupCard(s.landed, up);
    assert SealedFiles(s) == up + skipped && up !! skipped;
  }
}
