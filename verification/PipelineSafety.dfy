/** What every step of the upload pipeline keeps. */
module PipelineSafety {
  import opened Sequences
  import opened Pipeline
  import opened Wrappers

  /** The uploads given to a session. */
  ghost function FilesOf(files: seq<File>, sid: nat): set<nat> {
    set i: nat | i < |files| && files[i].sid == sid
  }

  predicate HasOp(x: File) { x.status.Pushed? || x.status.Uploaded? }

  /** No more files go to this session. */
  predicate SealedId(s: State, sid: nat) {
    sid < s.cur || (sid == s.cur && (!s.rxOpen || (s.driver.Committing? && s.driver.pending.Some?)))
  }

  /** The ops of one session are those of the uploads it was given, each once. */
  ghost predicate OpsOf(files: seq<File>, ops: seq<nat>, sid: nat) {
    && NoDup(ops)
    && (forall i :: i in ops ==> i < |files| && files[i].sid == sid && HasOp(files[i]))
    && (forall i :: 0 <= i < |files| && files[i].sid == sid && HasOp(files[i]) ==> i in ops)
  }

  ghost predicate CommittingNow(s: State, sid: nat) { s.driver.Committing? && s.driver.sid == sid }

  ghost predicate SlotOk(c: Config, s: State, sid: nat)
    requires sid in s.sessions
  {
    var slot := s.sessions[sid];
    && sid <= s.cur
    && slot.given == |FilesOf(s.files, sid)| && 1 <= slot.given <= c.chunk
    && slot.completed == |FilesOf(s.files, sid) - s.inflight|
    && slot.sealed == SealedId(s, sid)
    && (Ready(slot) <==> CommittingNow(s, sid))
    && (c.commitBytes > 0 ==> slot.before < c.commitBytes)
    && OpsOf(s.files, slot.ops, sid)
  }

  ghost predicate CommitOk(s: State, k: nat)
    requires k < |s.commits|
  {
    var sid := s.commits[k].sid;
    && (sid < s.cur || (sid == s.cur && !s.rxOpen)) && sid !in s.sessions
    && OpsOf(s.files, s.commits[k].ops, sid)
  }

  ghost predicate Slots(c: Config, s: State) { forall sid :: sid in s.sessions ==> SlotOk(c, s, sid) }

  ghost predicate Commits(s: State) {
    && |s.commits| <= MAX_PENDING_COMMITS
    && (forall k :: 0 <= k < |s.commits| ==> CommitOk(s, k))
    && (forall j, k :: 0 <= j < k < |s.commits| ==> s.commits[j].sid != s.commits[k].sid)
  }

  /** The driver has an object in hand. */
  predicate Holding(s: State) { s.driver.Opening? || (s.driver.Committing? && s.driver.pending.Some?) }

  ghost predicate Uploads(c: Config, s: State) {
    && c.parallel >= 1 && c.chunk >= 1
    && |s.inflight| <= c.parallel
    && (s.driver.Opening? || s.driver.Committing? ==> |s.inflight| < c.parallel)
    && (Holding(s) ==> s.rxOpen)
    && (s.driver.Committing? ==> s.driver.sid in s.sessions && (s.driver.pending.Some? ==> s.driver.sid == s.cur))
    && (s.driver.Opening? && s.cur in s.sessions ==> !Full(c, s.sessions[s.cur]))
    && (!s.rxOpen ==> s.incoming == [])
    && (s.driver.Finished? ==> !s.rxOpen && s.inflight == {} && s.commits == [])
    && (forall i :: i in s.inflight ==> i < |s.files| && s.files[i].sid in s.sessions)
    && (forall i :: 0 <= i < |s.files| ==>
          (i !in s.inflight ==> s.files[i].status.Uploaded? || s.files[i].status.Skipped?)
          && (s.files[i].sid in s.sessions || s.files[i].sid < s.cur || (s.files[i].sid == s.cur && !s.rxOpen)))
  }

  ghost predicate Unlanded(s: State, sid: nat) {
    exists k :: 0 <= k < |s.commits| && s.commits[k].sid == sid && !s.commits[k].phase.Landed?
  }

  ghost predicate Settled(s: State, sid: nat) { sid !in s.sessions && !Unlanded(s, sid) }

  /** An op is in its session, in the session's commit, or landed. */
  ghost predicate Homes(s: State) {
    && NoDup(s.landed)
    && (forall i :: i in s.landed ==> i < |s.files| && HasOp(s.files[i]) && Settled(s, s.files[i].sid))
    && (forall i :: 0 <= i < |s.files| && HasOp(s.files[i]) && Settled(s, s.files[i].sid) ==> i in s.landed)
  }

  /** Ops in the sessions below `n`. */
  ghost function LiveOps(sessions: map<nat, Slot>, n: nat): nat {
    if n == 0 then 0 else LiveOps(sessions, n - 1) + (if n - 1 in sessions then |sessions[n - 1].ops| else 0)
  }

  /** Ops in commits that have not landed. */
  ghost function CommitOps(commits: seq<Commit>): nat {
    if commits == [] then 0
    else (if commits[0].phase.Landed? then 0 else |commits[0].ops|) + CommitOps(commits[1..])
  }

  /** Uploads between their push and their count. */
  ghost function Pushing(s: State): set<nat> {
    set i | i in s.inflight && i < |s.files| && s.files[i].status.Pushed?
  }

  ghost function SealedFiles(s: State): set<nat> {
    set i: nat | i < |s.files| && SealedId(s, s.files[i].sid)
  }

  /** Conservation of ops. */
  ghost predicate Conserved(s: State) {
    && s.filesDone + |Pushing(s)| == |s.landed| + LiveOps(s.sessions, s.cur + 1) + CommitOps(s.commits)
    && (!s.rejected ==> s.committed == |s.landed|)
    && (!s.rejected ==> s.pendingAck + |s.landed| == |SealedFiles(s)|)
    && (s.rejected ==> exists k :: 0 <= k < |s.commits| && s.commits[k].phase.Broken?)
  }

  ghost predicate Good(c: Config, s: State) {
    Uploads(c, s) && Slots(c, s) && Commits(s) && Homes(s) && Conserved(s)
  }

  // ----- sums -----

  lemma {:induction false} LiveOpsSet(m: map<nat, Slot>, n: nat, sid: nat, slot: Slot)
    ensures LiveOps(m[sid := slot], n) ==
            LiveOps(m, n) + (if sid < n then |slot.ops| - (if sid in m then |m[sid].ops| else 0) else 0)
  {
    if n > 0 { LiveOpsSet(m, n - 1, sid, slot); }
  }

  lemma {:induction false} LiveOpsGone(m: map<nat, Slot>, n: nat, sid: nat)
    requires sid in m
    ensures LiveOps(m - {sid}, n) == LiveOps(m, n) - (if sid < n then |m[sid].ops| else 0)
  {
    if n > 0 { LiveOpsGone(m, n - 1, sid); }
  }

  lemma {:induction false} CommitOpsAppend(a: seq<Commit>, b: seq<Commit>)
    ensures CommitOps(a + b) == CommitOps(a) + CommitOps(b)
  {
    if a == [] {
      assert a + b == b;
    } else {
      assert (a + b)[1..] == a[1..] + b;
      CommitOpsAppend(a[1..], b);
    }
  }

  lemma {:induction false} CommitOpsSplit(cs: seq<Commit>, k: nat)
    requires k < |cs|
    ensures CommitOps(cs) == CommitOps(cs[..k]) + CommitOps([cs[k]]) + CommitOps(cs[k + 1..])
  {
    assert cs == cs[..k] + ([cs[k]] + cs[k + 1..]);
    CommitOpsAppend(cs[..k], [cs[k]] + cs[k + 1..]);
    CommitOpsAppend([cs[k]], cs[k + 1..]);
  }

  lemma {:induction false} CommitOpsOne(x: Commit)
    ensures CommitOps([x]) == if x.phase.Landed? then 0 else |x.ops|
  {
    assert [x][1..] == [];
  }

  lemma {:induction false} CommitOpsSet(cs: seq<Commit>, k: nat, x: Commit)
    requires k < |cs|
    ensures CommitOps(cs[k := x]) + CommitOps([cs[k]]) == CommitOps(cs) + CommitOps([x])
  {
    CommitOpsSplit(cs, k);
    CommitOpsSplit(cs[k := x], k);
    assert cs[k := x][..k] == cs[..k] && cs[k := x][k + 1..] == cs[k + 1..];
  }

  // ----- uploads -----

  /** The same uploads in the same sessions, with the same ops pushed. */
  ghost predicate SameOps(a: seq<File>, b: seq<File>) {
    |a| == |b| && forall i :: 0 <= i < |a| ==> b[i].sid == a[i].sid && HasOp(b[i]) == HasOp(a[i])
  }

  ghost predicate SameSids(a: seq<File>, b: seq<File>) {
    |a| == |b| && forall i :: 0 <= i < |a| ==> b[i].sid == a[i].sid
  }

  lemma {:induction false} SameFilesOf(a: seq<File>, b: seq<File>, sid: nat)
    requires SameSids(a, b)
    ensures FilesOf(b, sid) == FilesOf(a, sid)
  {
  }

  /** Everything but the uploads' statuses and the counters stays. */
  ghost predicate SameFrame(s: State, t: State) {
    && t.sessions == s.sessions && t.inflight == s.inflight && t.commits == s.commits
    && t.driver == s.driver && t.cur == s.cur && t.rxOpen == s.rxOpen && t.landed == s.landed
    && t.incoming == s.incoming && t.rejected == s.rejected && t.committed == s.committed
    && t.pendingAck == s.pendingAck
  }

  lemma {:induction false} SameOpsSlots(c: Config, s: State, t: State)
    requires Slots(c, s) && SameOps(s.files, t.files) && SameFrame(s, t)
    ensures Slots(c, t)
  {
    forall sid | sid in t.sessions ensures SlotOk(c, t, sid) {
      assert SlotOk(c, s, sid);
      SameFilesOf(s.files, t.files, sid);
    }
  }

  lemma {:induction false} SameOpsCommits(s: State, t: State)
    requires Commits(s) && SameOps(s.files, t.files) && SameFrame(s, t)
    ensures Commits(t)
  {
    forall k | 0 <= k < |t.commits| ensures CommitOk(t, k) { assert CommitOk(s, k); }
  }

  lemma {:induction false} SameOpsHomes(s: State, t: State)
    requires Homes(s) && SameOps(s.files, t.files) && SameFrame(s, t)
    ensures Homes(t)
  {
    forall sid ensures Settled(t, sid) == Settled(s, sid) { }
  }

  lemma {:induction false} StatusUploads(c: Config, s: State, t: State, i: nat)
    requires Uploads(c, s) && SameSids(s.files, t.files) && SameFrame(s, t) && i in s.inflight
    requires forall j :: 0 <= j < |s.files| && j != i ==> t.files[j] == s.files[j]
    ensures Uploads(c, t)
  {
  }

  lemma {:induction false} SameSealed(s: State, t: State)
    requires SameSids(s.files, t.files) && SameFrame(s, t)
    ensures SealedFiles(t) == SealedFiles(s)
  {
  }

  lemma {:induction false} SetPushing(s: State, i: nat, st: Status, t: State)
    requires InTask(s, i) && t.files == s.files[i := s.files[i].(status := st)] && t.inflight == s.inflight
    ensures Pushing(t) == if st.Pushed? then Pushing(s) + {i} else Pushing(s) - {i}
  {
  }

  lemma {:induction false} StatusSame(s: State, i: nat, st: Status, t: State)
    requires InTask(s, i) && t == SetStatus(s, i, st)
    requires (st.Pushed? || st.Uploaded?) == HasOp(s.files[i])
    ensures SameOps(s.files, t.files) && SameSids(s.files, t.files) && SameFrame(s, t)
    ensures forall j :: 0 <= j < |s.files| && j != i ==> t.files[j] == s.files[j]
  {
  }

  lemma {:induction false} SameKeeps(c: Config, s: State, t: State, i: nat)
    requires Uploads(c, s) && Slots(c, s) && Commits(s) && Homes(s)
    requires SameOps(s.files, t.files) && SameSids(s.files, t.files) && SameFrame(s, t) && i in s.inflight
    requires forall j :: 0 <= j < |s.files| && j != i ==> t.files[j] == s.files[j]
    ensures Uploads(c, t) && Slots(c, t) && Commits(t) && Homes(t)
  {
    SameOpsSlots(c, s, t);
    SameOpsCommits(s, t);
    SameOpsHomes(s, t);
    StatusUploads(c, s, t, i);
  }

  lemma {:induction false} StatusConserved(s: State, i: nat, st: Status, t: State)
    requires Conserved(s) && InTask(s, i) && s.files[i].status.Running? && !st.Pushed? && !st.Uploaded?
    requires t == SetStatus(s, i, st)
    ensures Conserved(t)
  {
    StatusSame(s, i, st, t);
    SameSealed(s, t);
    SetPushing(s, i, st, t);
    assert i !in Pushing(s);
  }

  /** A status change that is neither a push nor a count. */
  lemma {:induction false} StatusKeeps(c: Config, s: State, i: nat, st: Status, t: State)
    requires Good(c, s) && InTask(s, i) && s.files[i].status.Running? && !st.Pushed? && !st.Uploaded?
    requires t == SetStatus(s, i, st)
    ensures Good(c, t)
  {
    StatusSame(s, i, st, t);
    SameKeeps(c, s, t, i);
    StatusConserved(s, i, st, t);
  }

  lemma {:induction false} CountConserved(s: State, i: nat, t: State)
    requires Conserved(s) && InTask(s, i) && s.files[i].status.Pushed?
    requires t == SetStatus(s, i, Uploaded).(filesDone := s.filesDone + 1)
    ensures Conserved(t)
  {
    var u := SetStatus(s, i, Uploaded);
    StatusSame(s, i, Uploaded, u);
    SameSealed(s, t);
    SetPushing(s, i, Uploaded, t);
    assert i in Pushing(s);
  }

  lemma {:induction false} CountKeeps(c: Config, s: State, i: nat, t: State)
    requires Good(c, s) && InTask(s, i) && s.files[i].status.Pushed?
    requires t == SetStatus(s, i, Uploaded).(filesDone := s.filesDone + 1)
    ensures Good(c, t)
  {
    StatusSame(s, i, Uploaded, SetStatus(s, i, Uploaded));
    SameKeeps(c, s, t, i);
    CountConserved(s, i, t);
  }

  ghost predicate CanPush(s: State, i: nat) {
    InTask(s, i) && s.files[i].status.Running? && s.files[i].sid in s.sessions
  }

  lemma {:induction false} PushSlot(c: Config, s: State, i: nat, t: State, sid: nat)
    requires CanPush(s, i) && t == PushedOp(s, i) && sid in s.sessions && SlotOk(c, s, sid)
    ensures SlotOk(c, t, sid)
  {
    SameFilesOf(s.files, t.files, sid);
  }

  lemma {:induction false} PushCommit(s: State, i: nat, t: State, k: nat)
    requires CanPush(s, i) && t == PushedOp(s, i) && k < |s.commits| && CommitOk(s, k)
    ensures CommitOk(t, k)
  {
  }

  lemma {:induction false} PushHomes(s: State, i: nat, t: State)
    requires CanPush(s, i) && t == PushedOp(s, i) && Homes(s)
    ensures Homes(t)
  {
    forall sid ensures Settled(t, sid) == Settled(s, sid) { }
  }

  lemma {:induction false} PushUploads(c: Config, s: State, i: nat, t: State)
    requires CanPush(s, i) && t == PushedOp(s, i) && Uploads(c, s)
    ensures Uploads(c, t)
  {
    assert SameSids(s.files, t.files);
  }

  lemma {:induction false} PushConserved(c: Config, s: State, i: nat, t: State)
    requires CanPush(s, i) && t == PushedOp(s, i) && Conserved(s) && s.files[i].sid <= s.cur
    ensures Conserved(t)
  {
    SetPushing(s, i, Pushed, t);
    assert i !in Pushing(s);
    assert SealedFiles(t) == SealedFiles(s);
    LiveOpsSet(s.sessions, s.cur + 1, s.files[i].sid, t.sessions[s.files[i].sid]);
  }

  /** An upload always pushes into a live session, never into one whose ops
      were taken. */
  lemma {:induction false} PushKeeps(c: Config, s: State, i: nat, t: State)
    requires Good(c, s) && InTask(s, i) && s.files[i].status.Running? && t == PushedOp(s, i)
    ensures s.files[i].sid in s.sessions && Good(c, t)
  {
    assert SlotOk(c, s, s.files[i].sid);
    forall sid | sid in t.sessions ensures SlotOk(c, t, sid) { PushSlot(c, s, i, t, sid); }
    forall k | 0 <= k < |t.commits| ensures CommitOk(t, k) { PushCommit(s, i, t, k); }
    PushHomes(s, i, t);
    PushUploads(c, s, i, t);
    PushConserved(c, s, i, t);
  }

  // ----- commits -----

  lemma {:induction false} PhaseKeepsHomes(s: State, k: nat, p: Phase, t: State)
    requires Homes(s) && k < |s.commits| && !s.commits[k].phase.Landed? && !p.Landed?
    requires t.files == s.files && t.sessions == s.sessions && t.landed == s.landed
    requires t.commits == s.commits[k := s.commits[k].(phase := p)]
    ensures Homes(t)
  {
    forall sid ensures Settled(t, sid) == Settled(s, sid) {
      if j :| 0 <= j < |s.commits| && s.commits[j].sid == sid && !s.commits[j].phase.Landed? {
        assert t.commits[j].sid == sid && !t.commits[j].phase.Landed?;
      }
      if j :| 0 <= j < |t.commits| && t.commits[j].sid == sid && !t.commits[j].phase.Landed? {
        assert s.commits[j].sid == sid && !s.commits[j].phase.Landed?;
      }
    }
  }

  lemma {:induction false} PhaseKeepsCommits(s: State, k: nat, p: Phase, t: State)
    requires Commits(s) && k < |s.commits|
    requires t.files == s.files && t.sessions == s.sessions && t.cur == s.cur && t.rxOpen == s.rxOpen
    requires t.commits == s.commits[k := s.commits[k].(phase := p)]
    ensures Commits(t)
  {
    forall j | 0 <= j < |t.commits| ensures CommitOk(t, j) { assert CommitOk(s, j); }
  }

  /** The driver's own bookkeeping is untouched. */
  ghost predicate SameDriver(s: State, t: State) {
    && t.files == s.files && t.sessions == s.sessions && t.inflight == s.inflight
    && t.driver == s.driver && t.cur == s.cur && t.rxOpen == s.rxOpen && t.incoming == s.incoming
  }

  lemma {:induction false} SameDriverKeeps(c: Config, s: State, t: State)
    requires SameDriver(s, t) && Uploads(c, s) && Slots(c, s) && s.commits != []
    ensures Uploads(c, t) && Slots(c, t)
  {
    forall sid | sid in t.sessions ensures SlotOk(c, t, sid) { assert SlotOk(c, s, sid); }
  }

  lemma {:induction false} PhaseConserved(s: State, k: nat, p: Phase, t: State)
    requires Conserved(s) && k < |s.commits| && !p.Landed?
             && (s.commits[k].phase.Finalizing? || s.commits[k].phase.Posting?)
    requires SameDriver(s, t) && t.commits == s.commits[k := s.commits[k].(phase := p)]
    requires t.filesDone == s.filesDone && t.landed == s.landed
    requires !t.rejected ==> !s.rejected && t.committed == s.committed && t.pendingAck == s.pendingAck
    requires t.rejected ==> s.rejected || p.Broken?
    ensures Conserved(t)
  {
    assert Pushing(t) == Pushing(s) && SealedFiles(t) == SealedFiles(s);
    CommitOpsSet(s.commits, k, t.commits[k]);
    CommitOpsOne(s.commits[k]);
    CommitOpsOne(t.commits[k]);
    if t.rejected {
      if s.rejected {
        var j :| 0 <= j < |s.commits| && s.commits[j].phase.Broken?;
        assert t.commits[j].phase.Broken?;
      } else {
        assert t.commits[k].phase.Broken?;
      }
    }
  }

  lemma {:induction false} PhaseKeeps(c: Config, s: State, k: nat, p: Phase, t: State)
    requires Good(c, s) && k < |s.commits| && !p.Landed?
             && (s.commits[k].phase.Finalizing? || s.commits[k].phase.Posting?)
    requires SameDriver(s, t) && t.commits == s.commits[k := s.commits[k].(phase := p)]
    requires t.filesDone == s.filesDone && t.landed == s.landed
    requires !t.rejected ==> !s.rejected && t.committed == s.committed && t.pendingAck == s.pendingAck
    requires t.rejected ==> s.rejected || p.Broken?
    ensures Good(c, t)
  {
    PhaseKeepsHomes(s, k, p, t);
    PhaseKeepsCommits(s, k, p, t);
    PhaseConserved(s, k, p, t);
    SameDriverKeeps(c, s, t);
  }

  lemma {:induction false} LandHomes(s: State, k: nat, t: State)
    requires Homes(s) && Commits(s) && k < |s.commits| && s.commits[k].phase.Posting?
    requires t.files == s.files && t.sessions == s.sessions && t.landed == s.landed + s.commits[k].ops
    requires t.commits == s.commits[k := s.commits[k].(phase := Landed)]
    ensures Homes(t)
  {
    var mine := s.commits[k].sid;
    assert CommitOk(s, k) && Unlanded(s, mine);
    forall sid ensures Settled(t, sid) == (Settled(s, sid) || sid == mine) {
      if j :| 0 <= j < |s.commits| && s.commits[j].sid == sid && !s.commits[j].phase.Landed? {
        if j != k { assert t.commits[j].sid == sid && !t.commits[j].phase.Landed?; }
      }
      if j :| 0 <= j < |t.commits| && t.commits[j].sid == sid && !t.commits[j].phase.Landed? {
        assert s.commits[j].sid == sid && !s.commits[j].phase.Landed?;
      }
    }
    assert forall i :: i in s.landed ==> i !in s.commits[k].ops;
    NoDupAppend(s.landed, s.commits[k].ops);
  }

  lemma {:induction false} LandConserved(s: State, k: nat, t: State)
    requires Conserved(s) && k < |s.commits| && s.commits[k].phase.Posting?
    requires SameDriver(s, t) && t.commits == s.commits[k := s.commits[k].(phase := Landed)]
    requires t.filesDone == s.filesDone && t.landed == s.landed + s.commits[k].ops && t.rejected == s.rejected
    requires t.committed == s.committed + |s.commits[k].ops| && t.pendingAck == s.pendingAck - |s.commits[k].ops|
    ensures Conserved(t)
  {
    assert Pushing(t) == Pushing(s) && SealedFiles(t) == SealedFiles(s);
    CommitOpsSet(s.commits, k, t.commits[k]);
    CommitOpsOne(s.commits[k]);
    CommitOpsOne(t.commits[k]);
    if s.rejected {
      var j :| 0 <= j < |s.commits| && s.commits[j].phase.Broken?;
      assert t.commits[j].phase.Broken?;
    }
  }

  lemma {:induction false} PostKeeps(c: Config, s: State, k: nat, confirmed: Option<nat>)
    requires Good(c, s) && k < |s.commits| && s.commits[k].phase.Posting?
    ensures Good(c, Posted(s, k, confirmed))
  {
    var t := Posted(s, k, confirmed);
    if confirmed == Some(|s.commits[k].ops|) {
      LandHomes(s, k, t);
      PhaseKeepsCommits(s, k, Landed, t);
      LandConserved(s, k, t);
      SameDriverKeeps(c, s, t);
    } else {
      PhaseKeeps(c, s, k, Broken, t);
    }
  }
}
