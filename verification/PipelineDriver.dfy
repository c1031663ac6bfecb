/** What the driver's own steps keep: rotation, assignment, joins, commits. */
module PipelineDriver {
  import opened Sequences
  import opened Pipeline
  import opened PipelineSafety

  // ----- sealing the current session -----

  /** `t` is `s` with the current session sealed, by a rotation or at the end
      of the listing. */
  ghost predicate SealsCurrent(s: State, t: State) {
    && s.driver.Selecting? && s.rxOpen && s.cur in s.sessions
    && t.sessions == s.sessions[s.cur := s.sessions[s.cur].(sealed := true)]
    && t.files == s.files && t.inflight == s.inflight && t.commits == s.commits && t.landed == s.landed
    && t.filesDone == s.filesDone && t.committed == s.committed && t.rejected == s.rejected
    && t.pendingAck == s.pendingAck + s.sessions[s.cur].given
    && (t.cur == s.cur || (t.cur == s.cur + 1 && t.rxOpen))
    && (forall sid :: SealedId(t, sid) == (SealedId(s, sid) || sid == s.cur))
    && (forall sid :: CommittingNow(t, sid) <==> sid == s.cur && Ready(t.sessions[s.cur]))
  }

  lemma {:induction false} SealSlots(c: Config, s: State, t: State)
    requires SealsCurrent(s, t) && Slots(c, s)
    ensures Slots(c, t)
  {
    forall sid | sid in t.sessions ensures SlotOk(c, t, sid) { assert SlotOk(c, s, sid); }
  }

  lemma {:induction false} SealCommits(s: State, t: State)
    requires SealsCurrent(s, t) && Commits(s)
    ensures Commits(t) && (Homes(s) ==> Homes(t))
  {
    forall k | 0 <= k < |t.commits| ensures CommitOk(t, k) { assert CommitOk(s, k); }
    forall sid ensures Settled(t, sid) == Settled(s, sid) { }
  }

  lemma {:induction false} SealFiles(s: State, t: State)
    requires SealsCurrent(s, t)
    ensures SealedFiles(t) == SealedFiles(s) + FilesOf(s.files, s.cur) && SealedFiles(s) !! FilesOf(s.files, s.cur)
    ensures Pushing(t) == Pushing(s)
  {
  }

  lemma {:induction false} SealConserved(c: Config, s: State, t: State)
    requires SealsCurrent(s, t) && Conserved(s) && forall sid :: sid in s.sessions ==> sid <= s.cur
    requires s.sessions[s.cur].given == |FilesOf(s.files, s.cur)|
    ensures Conserved(t)
  {
    SealFiles(s, t);
    LiveOpsSet(s.sessions, s.cur + 1, s.cur, t.sessions[s.cur]);
    if t.cur == s.cur + 1 { assert LiveOps(t.sessions, s.cur + 2) == LiveOps(t.sessions, s.cur + 1); }
  }

  lemma {:induction false} SealKeeps(c: Config, s: State, t: State)
    requires Good(c, s) && SealsCurrent(s, t)
    ensures Slots(c, t) && Commits(t) && Homes(t) && Conserved(t)
  {
    SealSlots(c, s, t);
    SealCommits(s, t);
    assert SlotOk(c, s, s.cur);
    assert forall sid :: sid in s.sessions ==> SlotOk(c, s, sid);
    SealConserved(c, s, t);
  }

  /** Nothing but the driver's place, the channel and the incoming list differ. */
  ghost predicate Idles(s: State, t: State) {
    && t.files == s.files && t.inflight == s.inflight && t.commits == s.commits && t.landed == s.landed
    && t.sessions == s.sessions && t.cur == s.cur && t.filesDone == s.filesDone && t.committed == s.committed
    && t.rejected == s.rejected && t.pendingAck == s.pendingAck
    && (forall sid :: CommittingNow(t, sid) == CommittingNow(s, sid))
    && (forall i :: 0 <= i < |s.files| ==> SealedId(t, s.files[i].sid) == SealedId(s, s.files[i].sid))
    && (forall sid :: sid in s.sessions ==> SealedId(t, sid) == SealedId(s, sid))
    && (t.rxOpen ==> s.rxOpen)
  }

  lemma {:induction false} IdleKeeps(c: Config, s: State, t: State)
    requires Good(c, s) && Idles(s, t)
    ensures Slots(c, t) && Commits(t) && Homes(t) && Conserved(t)
  {
    IdleSlots(c, s, t);
    IdleCommits(s, t);
    IdleConserved(s, t);
  }

  lemma {:induction false} IdleSlots(c: Config, s: State, t: State)
    requires Slots(c, s) && t.files == s.files && t.inflight == s.inflight && t.sessions == s.sessions && t.cur == s.cur
    requires forall sid :: CommittingNow(t, sid) == CommittingNow(s, sid)
    requires forall sid :: sid in s.sessions ==> SealedId(t, sid) == SealedId(s, sid)
    ensures Slots(c, t)
  {
    forall sid | sid in t.sessions ensures SlotOk(c, t, sid) { assert SlotOk(c, s, sid); }
  }

  lemma {:induction false} IdleCommits(s: State, t: State)
    requires Commits(s) && Homes(s) && t.files == s.files && t.commits == s.commits && t.sessions == s.sessions
    requires t.cur == s.cur && t.landed == s.landed && (t.rxOpen ==> s.rxOpen)
    ensures Commits(t) && Homes(t)
  {
    forall k | 0 <= k < |t.commits| ensures CommitOk(t, k) { assert CommitOk(s, k); }
    forall sid ensures Settled(t, sid) == Settled(s, sid) { }
  }

  lemma {:induction false} IdleConserved(s: State, t: State)
    requires Conserved(s) && t.files == s.files && t.inflight == s.inflight && t.commits == s.commits
             && t.landed == s.landed
    requires t.sessions == s.sessions && t.cur == s.cur && t.filesDone == s.filesDone && t.committed == s.committed
    requires t.rejected == s.rejected && t.pendingAck == s.pendingAck
    requires forall i :: 0 <= i < |s.files| ==> SealedId(t, s.files[i].sid) == SealedId(s, s.files[i].sid)
    ensures Conserved(t)
  {
    assert Pushing(t) == Pushing(s);
    assert SealedFiles(t) == SealedFiles(s);
  }

  // ----- receive and close -----

  /** The current session takes files as long as the channel is open. */
  ghost predicate CurrentOpen(s: State) {
    && (s.cur in s.sessions && s.rxOpen && s.driver.Selecting? ==> !s.sessions[s.cur].sealed)
    && (forall sid :: sid in s.sessions ==> sid <= s.cur)
    && (forall i :: 0 <= i < |s.files| ==>
          s.files[i].sid in s.sessions || s.files[i].sid < s.cur || (s.files[i].sid == s.cur && !s.rxOpen))
  }

  lemma {:induction false} GoodCurrent(c: Config, s: State)
    requires Uploads(c, s) && Slots(c, s)
    ensures CurrentOpen(s)
  {
    forall sid | sid in s.sessions ensures sid <= s.cur { assert SlotOk(c, s, sid); }
    if s.cur in s.sessions { assert SlotOk(c, s, s.cur); }
  }

  lemma {:induction false} ReceiveIs(c: Config, s: State, t: State)
    requires CurrentOpen(s) && Enabled(c, s, Receive) && t == Apply(c, s, Receive)
    ensures SealsCurrent(s, t) || Idles(s, t)
  {
  }

  lemma {:induction false} CloseIs(c: Config, s: State, t: State)
    requires CurrentOpen(s) && Enabled(c, s, Close) && t == Apply(c, s, Close)
    ensures SealsCurrent(s, t) || Idles(s, t)
  {
  }

  lemma {:induction false} ReceiveUploads(c: Config, s: State, t: State)
    requires Uploads(c, s) && Enabled(c, s, Receive) && t == Apply(c, s, Receive) && CurrentOpen(s)
    ensures Uploads(c, t)
  {
  }

  lemma {:induction false} CloseUploads(c: Config, s: State, t: State)
    requires Uploads(c, s) && Enabled(c, s, Close) && t == Apply(c, s, Close) && CurrentOpen(s)
    ensures Uploads(c, t)
  {
  }

  lemma {:induction false} MovesOn(c: Config, s: State, t: State)
    requires Good(c, s) && (SealsCurrent(s, t) || Idles(s, t))
    ensures Slots(c, t) && Commits(t) && Homes(t) && Conserved(t)
  {
    if SealsCurrent(s, t) { SealKeeps(c, s, t); } else { IdleKeeps(c, s, t); }
  }

  lemma {:induction false} ReceiveKeeps(c: Config, s: State)
    requires Good(c, s) && Enabled(c, s, Receive)
    ensures Good(c, Apply(c, s, Receive))
  {
    var t := Apply(c, s, Receive);
    GoodCurrent(c, s);
    ReceiveIs(c, s, t);
    MovesOn(c, s, t);
    ReceiveUploads(c, s, t);
  }

  lemma {:induction false} CloseKeeps(c: Config, s: State)
    requires Good(c, s) && Enabled(c, s, Close)
    ensures Good(c, Apply(c, s, Close))
  {
    var t := Apply(c, s, Close);
    GoodCurrent(c, s);
    CloseIs(c, s, t);
    MovesOn(c, s, t);
    CloseUploads(c, s, t);
  }

  // ----- assigning an object -----

  ghost predicate Assigns(s: State, t: State) {
    s.driver.Opening? && t == Assigned(s, s.driver.size)
  }

  lemma {:induction false} AssignFilesOf(s: State, t: State, sid: nat)
    requires Assigns(s, t) && forall i :: i in s.inflight ==> i < |s.files|
    ensures FilesOf(t.files, sid) == FilesOf(s.files, sid) + (if sid == s.cur then {|s.files|} else {})
    ensures FilesOf(t.files, sid) - t.inflight == FilesOf(s.files, sid) - s.inflight
    ensures |s.files| !in FilesOf(s.files, sid)
  {
  }

  lemma {:induction false} AssignOps(s: State, t: State, ops: seq<nat>, sid: nat)
    requires Assigns(s, t) && OpsOf(s.files, ops, sid)
    ensures OpsOf(t.files, ops, sid)
  {
  }

  lemma {:induction false} AssignOld(c: Config, s: State, t: State, sid: nat)
    requires Assigns(s, t) && sid in s.sessions && sid != s.cur && SlotOk(c, s, sid)
    requires forall i :: i in s.inflight ==> i < |s.files|
    ensures SlotOk(c, t, sid)
  {
    AssignFilesOf(s, t, sid);
    AssignOps(s, t, s.sessions[sid].ops, sid);
  }

  lemma {:induction false} AssignGrown(c: Config, s: State, t: State)
    requires Assigns(s, t) && s.rxOpen && s.cur in s.sessions && SlotOk(c, s, s.cur) && !Full(c, s.sessions[s.cur])
    requires forall i :: i in s.inflight ==> i < |s.files|
    ensures SlotOk(c, t, s.cur)
  {
    AssignFilesOf(s, t, s.cur);
    AssignOps(s, t, s.sessions[s.cur].ops, s.cur);
  }

  lemma {:induction false} AssignFirst(c: Config, s: State, t: State)
    requires Assigns(s, t) && s.rxOpen && s.cur !in s.sessions && CurrentOpen(s) && c.chunk >= 1
    requires forall i :: i in s.inflight ==> i < |s.files|
    ensures SlotOk(c, t, s.cur)
  {
    AssignFilesOf(s, t, s.cur);
    assert FilesOf(s.files, s.cur) == {};
  }

  lemma {:induction false} AssignCommit(s: State, t: State, k: nat)
    requires Assigns(s, t) && s.rxOpen && k < |s.commits| && CommitOk(s, k)
    ensures CommitOk(t, k)
  {
  }

  lemma {:induction false} AssignHomes(s: State, t: State)
    requires Assigns(s, t) && s.rxOpen && Homes(s) && CurrentOpen(s)
    ensures Homes(t)
  {
    forall sid | sid != s.cur ensures Settled(t, sid) == Settled(s, sid) { }
    forall i | 0 <= i < |s.files| && s.files[i].sid == s.cur ensures s.cur in s.sessions { }
  }

  lemma {:induction false} AssignConserved(s: State, t: State)
    requires Assigns(s, t) && s.rxOpen && Conserved(s) && forall i :: i in s.inflight ==> i < |s.files|
    ensures Conserved(t)
  {
    assert Pushing(t) == Pushing(s);
    assert SealedFiles(t) == SealedFiles(s);
    LiveOpsSet(s.sessions, s.cur + 1, s.cur, t.sessions[s.cur]);
  }

  lemma {:induction false} AssignUploads(c: Config, s: State, t: State)
    requires Assigns(s, t) && Uploads(c, s)
    ensures Uploads(c, t)
  {
  }

  lemma {:induction false} AssignKeeps(c: Config, s: State, t: State)
    requires Good(c, s) && Assigns(s, t)
    ensures Good(c, t)
  {
    GoodCurrent(c, s);
    forall sid | sid in t.sessions ensures SlotOk(c, t, sid) {
      if sid != s.cur {
        AssignOld(c, s, t, sid);
      } else if s.cur in s.sessions {
        assert SlotOk(c, s, s.cur);
        AssignGrown(c, s, t);
      } else {
        AssignFirst(c, s, t);
      }
    }
    forall k | 0 <= k < |t.commits| ensures CommitOk(t, k) { AssignCommit(s, t, k); }
    AssignHomes(s, t);
    AssignConserved(s, t);
    AssignUploads(c, s, t);
  }

  // ----- joining an upload -----

  ghost predicate Joins(s: State, i: nat, t: State) {
    && s.driver.Selecting? && InTask(s, i) && Ended(s.files[i].status) && !s.files[i].status.Failed?
    && s.files[i].sid in s.sessions && t == Joined(s, i)
  }

  lemma {:induction false} JoinMine(c: Config, s: State, i: nat, t: State)
    requires Joins(s, i, t) && SlotOk(c, s, s.files[i].sid)
    ensures SlotOk(c, t, s.files[i].sid)
  {
    var sid := s.files[i].sid;
    assert FilesOf(t.files, sid) - t.inflight == FilesOf(s.files, sid) - s.inflight + {i};
    assert i !in FilesOf(s.files, sid) - s.inflight;
  }

  lemma {:induction false} JoinOther(c: Config, s: State, i: nat, t: State, sid: nat)
    requires Joins(s, i, t) && sid in s.sessions && sid != s.files[i].sid && SlotOk(c, s, sid)
    ensures SlotOk(c, t, sid)
  {
    assert FilesOf(t.files, sid) - t.inflight == FilesOf(s.files, sid) - s.inflight;
  }

  lemma {:induction false} JoinCommits(s: State, i: nat, t: State)
    requires Joins(s, i, t) && Commits(s) && Homes(s)
    ensures Commits(t) && Homes(t)
  {
    forall k | 0 <= k < |t.commits| ensures CommitOk(t, k) { assert CommitOk(s, k); }
    forall sid ensures Settled(t, sid) == Settled(s, sid) { }
  }

  lemma {:induction false} JoinConserved(s: State, i: nat, t: State)
    requires Joins(s, i, t) && Conserved(s)
    ensures Conserved(t)
  {
    assert Pushing(t) == Pushing(s);
    assert SealedFiles(t) == SealedFiles(s);
    LiveOpsSet(s.sessions, s.cur + 1, s.files[i].sid, t.sessions[s.files[i].sid]);
  }

  lemma {:induction false} JoinUploads(c: Config, s: State, i: nat, t: State)
    requires Joins(s, i, t) && Uploads(c, s)
    ensures Uploads(c, t)
  {
  }

  lemma {:induction false} JoinKeeps(c: Config, s: State, i: nat, t: State)
    requires Good(c, s) && Joins(s, i, t)
    ensures Good(c, t)
  {
    forall sid | sid in t.sessions ensures SlotOk(c, t, sid) {
      assert SlotOk(c, s, sid);
      if sid == s.files[i].sid { JoinMine(c, s, i, t); } else { JoinOther(c, s, i, t, sid); }
    }
    JoinCommits(s, i, t);
    JoinConserved(s, i, t);
    JoinUploads(c, s, i, t);
  }

  // ----- joining a commit -----

  lemma {:induction false} ReapCommits(s: State, k: nat, t: State)
    requires Commits(s) && Homes(s) && k < |s.commits| && s.commits[k].phase.Landed?
    requires t == s.(commits := s.commits[..k] + s.commits[k + 1..])
    ensures Commits(t) && Homes(t)
  {
    forall j | 0 <= j < |t.commits| ensures CommitOk(t, j) { assert CommitOk(s, if j < k then j else j + 1); }
    forall sid ensures Settled(t, sid) == Settled(s, sid) {
      if j :| 0 <= j < |s.commits| && s.commits[j].sid == sid && !s.commits[j].phase.Landed? {
        assert t.commits[if j < k then j else j - 1] == s.commits[j];
      }
      if j :| 0 <= j < |t.commits| && t.commits[j].sid == sid && !t.commits[j].phase.Landed? {
        assert s.commits[if j < k then j else j + 1] == t.commits[j];
      }
    }
  }

  lemma {:induction false} ReapConserved(s: State, k: nat, t: State)
    requires Conserved(s) && k < |s.commits| && s.commits[k].phase.Landed?
    requires t == s.(commits := s.commits[..k] + s.commits[k + 1..])
    ensures Conserved(t)
  {
    assert Pushing(t) == Pushing(s) && SealedFiles(t) == SealedFiles(s);
    CommitOpsSplit(s.commits, k);
    CommitOpsOne(s.commits[k]);
    CommitOpsAppend(s.commits[..k], s.commits[k + 1..]);
    if s.rejected {
      var j :| 0 <= j < |s.commits| && s.commits[j].phase.Broken?;
      assert t.commits[if j < k then j else j - 1] == s.commits[j];
    }
  }

  lemma {:induction false} ReapKeeps(c: Config, s: State, k: nat, t: State)
    requires Good(c, s) && k < |s.commits| && s.commits[k].phase.Landed?
    requires t == s.(commits := s.commits[..k] + s.commits[k + 1..])
    ensures Good(c, t)
  {
    SameDriverKeeps(c, s, t);
    ReapCommits(s, k, t);
    ReapConserved(s, k, t);
  }

  // ----- spawning a commit -----

  ghost predicate Spawns(s: State, t: State) {
    s.driver.Committing? && s.driver.sid in s.sessions && |s.commits| < MAX_PENDING_COMMITS && t == Spawned(s)
  }

  /** All uploads of the session are joined. */
  lemma {:induction false} SpawnIdle(c: Config, s: State)
    requires s.driver.Committing? && s.driver.sid in s.sessions && SlotOk(c, s, s.driver.sid)
    ensures FilesOf(s.files, s.driver.sid) !! s.inflight
  {
    var mine := FilesOf(s.files, s.driver.sid);
    if i :| i in mine && i in s.inflight {
      SubsetCard(mine - s.inflight, mine - {i});
      assert false;
    }
  }

  lemma {:induction false} SpawnOther(c: Config, s: State, t: State, sid: nat)
    requires Spawns(s, t) && sid in s.sessions && sid != s.driver.sid && SlotOk(c, s, sid)
    requires s.driver.pending.Some? ==> s.driver.sid == s.cur && s.rxOpen
    ensures SlotOk(c, t, sid)
  {
  }

  lemma {:induction false} SpawnCommits(s: State, t: State)
    requires Spawns(s, t) && Commits(s) && OpsOf(s.files, s.sessions[s.driver.sid].ops, s.driver.sid)
    requires SealedId(s, s.driver.sid) && (s.driver.pending.Some? ==> s.driver.sid == s.cur && s.rxOpen)
    ensures Commits(t)
  {
    forall k | 0 <= k < |t.commits| ensures CommitOk(t, k) {
      if k < |s.commits| { assert CommitOk(s, k) && t.commits[k] == s.commits[k]; }
    }
    forall k | 0 <= k < |s.commits| ensures s.commits[k].sid != s.driver.sid { assert CommitOk(s, k); }
  }

  lemma {:induction false} SpawnHomes(s: State, t: State)
    requires Spawns(s, t) && Homes(s)
    ensures Homes(t)
  {
    forall sid ensures Settled(t, sid) == Settled(s, sid) {
      if sid == s.driver.sid { assert t.commits[|s.commits|].sid == sid; }
      if j :| 0 <= j < |s.commits| && s.commits[j].sid == sid && !s.commits[j].phase.Landed? {
        assert t.commits[j] == s.commits[j];
      }
    }
  }

  lemma {:induction false} SpawnConserved(s: State, t: State)
    requires Spawns(s, t) && Conserved(s) && forall sid :: sid in s.sessions ==> sid <= s.cur
    requires s.driver.pending.Some? ==> s.driver.sid == s.cur && s.rxOpen
    ensures Conserved(t)
  {
    assert Pushing(t) == Pushing(s) && SealedFiles(t) == SealedFiles(s);
    LiveOpsGone(s.sessions, s.cur + 1, s.driver.sid);
    if t.cur == s.cur + 1 { assert LiveOps(t.sessions, s.cur + 2) == LiveOps(t.sessions, s.cur + 1); }
    CommitOpsAppend(s.commits, [t.commits[|s.commits|]]);
    CommitOpsOne(t.commits[|s.commits|]);
    if s.rejected {
      var j :| 0 <= j < |s.commits| && s.commits[j].phase.Broken?;
      assert t.commits[j] == s.commits[j];
    }
  }

  lemma {:induction false} SpawnUploads(c: Config, s: State, t: State)
    requires Spawns(s, t) && Uploads(c, s) && FilesOf(s.files, s.driver.sid) !! s.inflight
    requires SealedId(s, s.driver.sid) && forall sid :: sid in s.sessions ==> sid <= s.cur
    ensures Uploads(c, t)
  {
    forall i | i in t.inflight ensures t.files[i].sid in t.sessions {
      assert i !in FilesOf(s.files, s.driver.sid);
    }
  }

  lemma {:induction false} SpawnKeeps(c: Config, s: State, t: State)
    requires Good(c, s) && Spawns(s, t)
    ensures Good(c, t)
  {
    GoodCurrent(c, s);
    assert SlotOk(c, s, s.driver.sid);
    SpawnIdle(c, s);
    forall sid | sid in t.sessions ensures SlotOk(c, t, sid) {
      assert SlotOk(c, s, sid);
      SpawnOther(c, s, t, sid);
    }
    SpawnCommits(s, t);
    SpawnHomes(s, t);
    SpawnConserved(s, t);
    SpawnUploads(c, s, t);
  }

  // ----- every step -----

  lemma {:induction false} ExitKeeps(c: Config, s: State)
    requires Good(c, s) && Enabled(c, s, Exit)
    ensures Good(c, Apply(c, s, Exit))
  {
    IdleKeeps(c, s, Apply(c, s, Exit));
  }

  predicate EndsAttempt(step: Step) { step.Retry? || step.Skip? || step.Fail? || step.Panic? }

  lemma {:induction false} AttemptIs(c: Config, s: State, step: Step, t: State) returns (st: Status)
    requires Enabled(c, s, step) && t == Apply(c, s, step) && EndsAttempt(step)
    ensures InTask(s, step.i) && s.files[step.i].status.Running? && t == SetStatus(s, step.i, st)
    ensures !st.Pushed? && !st.Uploaded?
  {
    st := t.files[step.i].status;
  }

  lemma {:induction false} AttemptKeeps(c: Config, s: State, step: Step, t: State)
    requires Good(c, s) && Enabled(c, s, step) && t == Apply(c, s, step) && EndsAttempt(step)
    ensures Good(c, t)
  {
    var st := AttemptIs(c, s, step, t);
    StatusKeeps(c, s, step.i, st, t);
  }

  lemma {:induction false} PushIs(c: Config, s: State, i: nat, t: State)
    requires Enabled(c, s, Push(i)) && t == Apply(c, s, Push(i))
    ensures InTask(s, i) && s.files[i].status.Running? && t == PushedOp(s, i)
  {
  }

  lemma {:induction false} CountIs(c: Config, s: State, i: nat, t: State)
    requires Enabled(c, s, CountDone(i)) && t == Apply(c, s, CountDone(i))
    ensures InTask(s, i) && s.files[i].status.Pushed?
    ensures t == SetStatus(s, i, Uploaded).(filesDone := s.filesDone + 1)
  {
  }

  lemma {:induction false} CommitStepKeeps(c: Config, s: State, step: Step, t: State)
    requires Good(c, s) && Enabled(c, s, step) && t == Apply(c, s, step)
    requires step.Finalize? || step.Post?
    ensures Good(c, t)
  {
    match step
    case Finalize(k, ok) => PhaseKeeps(c, s, k, if ok then Posting else Broken, t);
    case Post(k, confirmed) => PostKeeps(c, s, k, confirmed);
    case _ =>
  }

  predicate OfDriver(step: Step) {
    step.Receive? || step.Close? || step.Open? || step.JoinUpload? || step.JoinCommit? || step.SpawnCommit?
      || step.Exit?
  }

  predicate OfQueue(step: Step) { step.Receive? || step.Close? || step.Open? }

  lemma {:induction false} QueueStepKeeps(c: Config, s: State, step: Step, t: State)
    requires Good(c, s) && Enabled(c, s, step) && t == Apply(c, s, step) && !t.driver.Aborted? && OfQueue(step)
    ensures Good(c, t)
  {
    match step
    case Receive => ReceiveKeeps(c, s);
    case Close => CloseKeeps(c, s);
    case Open(_) => AssignKeeps(c, s, t);
    case _ =>
  }

  lemma {:induction false} JoinStepKeeps(c: Config, s: State, i: nat, t: State)
    requires Good(c, s) && Enabled(c, s, JoinUpload(i)) && t == Apply(c, s, JoinUpload(i)) && !t.driver.Aborted?
    ensures Good(c, t)
  {
    JoinIs(c, s, i, t);
    JoinKeeps(c, s, i, t);
  }

  lemma {:induction false} JoinIs(c: Config, s: State, i: nat, t: State)
    requires Enabled(c, s, JoinUpload(i)) && t == Apply(c, s, JoinUpload(i)) && !t.driver.Aborted?
    ensures Joins(s, i, t)
  {
  }

  lemma {:induction false} ReapIs(c: Config, s: State, k: nat, t: State)
    requires Enabled(c, s, JoinCommit(k)) && t == Apply(c, s, JoinCommit(k)) && !t.driver.Aborted?
    ensures k < |s.commits| && s.commits[k].phase.Landed?
    ensures t == s.(commits := s.commits[..k] + s.commits[k + 1..])
  {
  }

  lemma {:induction false} SpawnIs(c: Config, s: State, t: State)
    requires Enabled(c, s, SpawnCommit) && t == Apply(c, s, SpawnCommit)
    ensures Spawns(s, t)
  {
  }

  lemma {:induction false} DriverStepKeeps(c: Config, s: State, step: Step, t: State)
    requires Good(c, s) && Enabled(c, s, step) && t == Apply(c, s, step) && !t.driver.Aborted?
    requires OfDriver(step) && !OfQueue(step)
    ensures Good(c, t)
  {
    if step.JoinUpload? {
      JoinStepKeeps(c, s, step.i, t);
    } else if step.JoinCommit? {
      ReapIs(c, s, step.k, t);
      ReapKeeps(c, s, step.k, t);
    } else if step.SpawnCommit? {
      SpawnIs(c, s, t);
      SpawnKeeps(c, s, t);
    } else {
      ExitKeeps(c, s);
    }
  }

  /** As long as the driver has not aborted, every step keeps the invariant. */
  lemma {:induction false} StepKeeps(c: Config, s: State, step: Step, t: State)
    requires Good(c, s) && Enabled(c, s, step) && t == Apply(c, s, step)
    ensures t.driver.Aborted? || Good(c, t)
  {
    if !t.driver.Aborted? {
      if OfQueue(step) {
        QueueStepKeeps(c, s, step, t);
      } else if OfDriver(step) {
        DriverStepKeeps(c, s, step, t);
      } else if step.Finalize? || step.Post? {
        CommitStepKeeps(c, s, step, t);
      } else if EndsAttempt(step) {
        AttemptKeeps(c, s, step, t);
      } else if step.Push? {
        PushIs(c, s, step.i, t);
        PushKeeps(c, s, step.i, t);
      } else {
        CountIs(c, s, step.i, t);
        CountKeeps(c, s, step.i, t);
      }
    }
  }
}
