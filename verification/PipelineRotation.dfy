/** When sessions rotate: each object goes to the session of the one before it, until
    that session has its files or its bytes; only then the next one begins. */
module PipelineRotation {
  import opened Pipeline
  import opened PipelineSafety
  import opened PipelineDriver
  import opened PipelineResults

  /** Bytes of the uploads given to a session. */
  ghost function BytesOf(files: seq<File>, sid: nat): nat {
    if files == [] then 0
    else
      var n := |files| - 1;
      BytesOf(files[..n], sid) + (if files[n].sid == sid then files[n].size else 0)
  }

  /** The files given to the session reach one of the two thresholds. */
  ghost predicate Reached(c: Config, files: seq<File>, sid: nat) {
    |FilesOf(files, sid)| >= c.chunk || (c.commitBytes > 0 && BytesOf(files, sid) >= c.commitBytes)
  }

  /** The session of the next object. */
  ghost function NextSid(c: Config, files: seq<File>): nat {
    if files == [] then 0
    else
      var last := files[|files| - 1].sid;
      if Reached(c, files, last) then last + 1 else last
  }

  ghost predicate Greedy(c: Config, files: seq<File>) {
    files == [] ||
    var n := |files| - 1;
    Greedy(c, files[..n]) && files[n].sid == NextSid(c, files[..n])
  }

  ghost predicate Counted(s: State) {
    forall sid :: sid in s.sessions ==>
      s.sessions[sid].given == |FilesOf(s.files, sid)| && s.sessions[sid].bytes == BytesOf(s.files, sid)
  }

  /** Where the current session stands. */
  ghost predicate Placed(c: Config, s: State) {
    if s.driver.Opening? then s.cur == NextSid(c, s.files)
    else
      && (if s.files == [] then s.cur == 0 else s.cur == s.files[|s.files| - 1].sid)
      && (s.driver.Committing? && s.driver.pending.Some? ==> s.files != [] && Reached(c, s.files, s.cur))
  }

  ghost predicate Rotates(c: Config, s: State) { Greedy(c, s.files) && Counted(s) && Placed(c, s) }

  // ----- steps that give no file to a session -----

  /** The same uploads, of the same sizes, in the same sessions. */
  ghost predicate SameGiven(a: seq<File>, b: seq<File>) {
    |a| == |b| && forall i :: 0 <= i < |a| ==> b[i].sid == a[i].sid && b[i].size == a[i].size
  }

  lemma {:induction false} SameBytes(a: seq<File>, b: seq<File>, sid: nat)
    requires SameGiven(a, b)
    ensures BytesOf(b, sid) == BytesOf(a, sid) && FilesOf(b, sid) == FilesOf(a, sid)
  {
    if a != [] { SameBytes(a[..|a| - 1], b[..|a| - 1], sid); }
  }

  lemma {:induction false} SameNext(c: Config, a: seq<File>, b: seq<File>)
    requires SameGiven(a, b)
    ensures NextSid(c, b) == NextSid(c, a)
  {
    if a != [] { SameBytes(a, b, a[|a| - 1].sid); }
  }

  lemma {:induction false} SameGreedy(c: Config, a: seq<File>, b: seq<File>)
    requires SameGiven(a, b) && Greedy(c, a)
    ensures Greedy(c, b)
  {
    if a != [] {
      SameGreedy(c, a[..|a| - 1], b[..|a| - 1]);
      SameNext(c, a[..|a| - 1], b[..|a| - 1]);
    }
  }

  /** Sessions may go, and their other fields change. */
  ghost predicate GivesNothing(s: State, t: State) {
    && SameGiven(s.files, t.files)
    && forall sid :: sid in t.sessions ==>
         sid in s.sessions && t.sessions[sid].given == s.sessions[sid].given
         && t.sessions[sid].bytes == s.sessions[sid].bytes
  }

  lemma {:induction false} NothingGiven(c: Config, s: State, t: State)
    requires GivesNothing(s, t) && Greedy(c, s.files) && Counted(s)
    ensures Greedy(c, t.files) && Counted(t)
  {
    SameGreedy(c, s.files, t.files);
    forall sid | sid in t.sessions
      ensures t.sessions[sid].given == |FilesOf(t.files, sid)| && t.sessions[sid].bytes == BytesOf(t.files, sid)
    { SameBytes(s.files, t.files, sid); }
  }

  /** The driver has no object in hand, before or after, or is where it was. */
  ghost predicate StaysThere(s: State, t: State) {
    && GivesNothing(s, t) && t.cur == s.cur
    && (t.driver == s.driver || (!t.driver.Opening? && !s.driver.Opening? && InHand(t.driver) == []))
  }

  lemma {:induction false} StaysPlaced(c: Config, s: State, t: State)
    requires Rotates(c, s) && StaysThere(s, t)
    ensures Rotates(c, t)
  {
    NothingGiven(c, s, t);
    SameNext(c, s.files, t.files);
    SameBytes(s.files, t.files, s.cur);
  }

  lemma {:induction false} CloseStays(c: Config, s: State, t: State)
    requires Enabled(c, s, Close) && t == Apply(c, s, Close)
    ensures StaysThere(s, t)
  {
  }

  lemma {:induction false} JoinStays(c: Config, s: State, step: Step, t: State)
    requires Enabled(c, s, step) && t == Apply(c, s, step) && (step.JoinUpload? || step.JoinCommit? || step.Exit?)
    requires !t.driver.Aborted?
    ensures StaysThere(s, t)
  {
  }

  lemma {:induction false} StatusStays(c: Config, s: State, step: Step, t: State)
    requires Enabled(c, s, step) && t == Apply(c, s, step) && (EndsAttempt(step) || step.CountDone?)
    ensures StaysThere(s, t)
  {
  }

  lemma {:induction false} PushStays(c: Config, s: State, i: nat, t: State)
    requires Enabled(c, s, Push(i)) && t == Apply(c, s, Push(i))
    ensures StaysThere(s, t)
  {
  }

  lemma {:induction false} PhaseStays(c: Config, s: State, step: Step, t: State)
    requires Enabled(c, s, step) && t == Apply(c, s, step) && (step.Finalize? || step.Post?)
    ensures StaysThere(s, t)
  {
    assert t.files == s.files && t.sessions == s.sessions && t.cur == s.cur && t.driver == s.driver;
  }

  lemma {:induction false} OtherStays(c: Config, s: State, step: Step, t: State)
    requires Enabled(c, s, step) && t == Apply(c, s, step) && !t.driver.Aborted?
    requires !step.Receive? && !step.SpawnCommit? && !step.Open?
    ensures StaysThere(s, t)
  {
    match step
    case Close => CloseStays(c, s, t);
    case Push(i) => PushStays(c, s, i, t);
    case _ =>
      if OfDriver(step) {
        JoinStays(c, s, step, t);
      } else if step.Finalize? || step.Post? {
        PhaseStays(c, s, step, t);
      } else {
        StatusStays(c, s, step, t);
      }
  }

  /** The session of the last object, as the driver counts it. */
  lemma {:induction false} FullIsReached(c: Config, s: State)
    requires Counted(s) && s.cur in s.sessions
    ensures Full(c, s.sessions[s.cur]) <==> Reached(c, s.files, s.cur)
  {
  }

  lemma {:induction false} CurrentHasFiles(c: Config, s: State)
    requires Uploads(c, s) && Slots(c, s) && Placed(c, s) && s.driver.Selecting? && s.rxOpen
    ensures s.cur in s.sessions <==> s.files != []
  {
    if s.cur in s.sessions {
      assert SlotOk(c, s, s.cur);
      assert s.files == [] ==> FilesOf(s.files, s.cur) == {};
    }
  }

  /** What a receive does to the driver: the next session, when the current one is full. */
  lemma {:induction false} ReceiveMoves(c: Config, s: State, t: State)
    requires Enabled(c, s, Receive) && t == Apply(c, s, Receive)
    ensures t.files == s.files && GivesNothing(s, t)
    ensures var full := s.cur in s.sessions && Full(c, s.sessions[s.cur]);
            if t.driver.Opening? then t.cur == (if full then s.cur + 1 else s.cur)
            else t.cur == s.cur && full && !t.driver.Selecting?
  {
  }

  lemma {:induction false} ReceiveRotates(c: Config, s: State, t: State)
    requires Rotates(c, s) && Enabled(c, s, Receive) && t == Apply(c, s, Receive)
    requires s.cur in s.sessions <==> s.files != []
    ensures Rotates(c, t)
  {
    ReceiveMoves(c, s, t);
    NothingGiven(c, s, t);
    if s.cur in s.sessions { FullIsReached(c, s); }
  }

  lemma {:induction false} SpawnMoves(c: Config, s: State, t: State)
    requires Enabled(c, s, SpawnCommit) && t == Apply(c, s, SpawnCommit)
    ensures t.files == s.files && GivesNothing(s, t)
    ensures if s.driver.pending.Some? then t.driver.Opening? && t.cur == s.cur + 1
            else t.driver.Selecting? && t.cur == s.cur
  {
  }

  lemma {:induction false} SpawnRotates(c: Config, s: State, t: State)
    requires Rotates(c, s) && Enabled(c, s, SpawnCommit) && t == Apply(c, s, SpawnCommit)
    ensures Rotates(c, t)
  {
    SpawnMoves(c, s, t);
    NothingGiven(c, s, t);
  }

  // ----- giving an object to a session -----

  lemma {:induction false} OneMoreFile(files: seq<File>, x: File, sid: nat)
    ensures |FilesOf(files + [x], sid)| == |FilesOf(files, sid)| + (if x.sid == sid then 1 else 0)
    ensures BytesOf(files + [x], sid) == BytesOf(files, sid) + (if x.sid == sid then x.size else 0)
  {
    assert (files + [x])[..|files|] == files;
    assert FilesOf(files + [x], sid) == FilesOf(files, sid) + (if x.sid == sid then {|files|} else {});
    assert |files| !in FilesOf(files, sid);
  }

  /** A session that does not exist yet has no files. */
  lemma {:induction false} NewSidIsFresh(c: Config, files: seq<File>, sid: nat)
    requires Greedy(c, files) && forall i :: 0 <= i < |files| ==> files[i].sid != sid
    ensures |FilesOf(files, sid)| == 0 && BytesOf(files, sid) == 0
  {
    if files != [] { NewSidIsFresh(c, files[..|files| - 1], sid); }
    assert FilesOf(files, sid) == {};
  }

  lemma {:induction false} NoFilesYet(c: Config, s: State)
    requires Uploads(c, s) && Slots(c, s) && s.driver.Opening? && s.cur !in s.sessions
    ensures forall i :: 0 <= i < |s.files| ==> s.files[i].sid != s.cur
  {
  }

  lemma {:induction false} AssignCounts(s: State, t: State)
    requires Counted(s) && s.driver.Opening? && t == Assigned(s, s.driver.size)
    requires s.cur !in s.sessions ==> |FilesOf(s.files, s.cur)| == 0 && BytesOf(s.files, s.cur) == 0
    ensures Counted(t)
  {
    var x := File(s.cur, s.driver.size, Running(1));
    assert t.files == s.files + [x];
    forall sid | sid in t.sessions
      ensures t.sessions[sid].given == |FilesOf(t.files, sid)| && t.sessions[sid].bytes == BytesOf(t.files, sid)
    { OneMoreFile(s.files, x, sid); }
  }

  lemma {:induction false} OpenRotates(c: Config, s: State, ok: bool, t: State)
    requires Good(c, s) && Rotates(c, s) && Enabled(c, s, Open(ok)) && t == Apply(c, s, Open(ok))
    requires !t.driver.Aborted?
    ensures Rotates(c, t)
  {
    OpenIs(c, s, ok, t);
    if s.cur !in s.sessions {
      NoFilesYet(c, s);
      NewSidIsFresh(c, s.files, s.cur);
    }
    AssignCounts(s, t);
    assert t.files[..|s.files|] == s.files;
  }

  // ----- every step -----

  lemma {:induction false} StepRotates(c: Config, s: State, step: Step, t: State)
    requires Good(c, s) && Rotates(c, s) && Enabled(c, s, step) && t == Apply(c, s, step) && !t.driver.Aborted?
    ensures Rotates(c, t)
  {
    if step.Receive? {
      CurrentHasFiles(c, s);
      ReceiveRotates(c, s, t);
    } else if step.SpawnCommit? {
      SpawnRotates(c, s, t);
    } else if step.Open? {
      OpenRotates(c, s, step.ok, t);
    } else {
      OtherStays(c, s, step, t);
      StaysPlaced(c, s, t);
    }
  }

  lemma {:induction false} RunRotates(c: Config, s: State, steps: seq<Step>)
    requires s.driver.Aborted? || (Good(c, s) && Rotates(c, s))
    requires Valid(c, s, steps)
    ensures var t := Run(c, s, steps); t.driver.Aborted? || (Good(c, t) && Rotates(c, t))
    decreases |steps|
  {
    if steps != [] {
      var t := Apply(c, s, steps[0]);
      StepKeeps(c, s, steps[0], t);
      if !t.driver.Aborted? { StepRotates(c, s, steps[0], t); }
      RunRotates(c, t, steps[1..]);
    }
  }

  // ----- what it means for a session -----

  lemma {:induction false} ReachedStays(c: Config, files: seq<File>, x: File, sid: nat)
    requires Reached(c, files, sid)
    ensures Reached(c, files + [x], sid)
  {
    OneMoreFile(files, x, sid);
  }

  /** A session that has a successor has reached a threshold. */
  lemma {:induction false} PassedIsReached(c: Config, files: seq<File>, sid: nat)
    requires Greedy(c, files) && files != [] && sid < files[|files| - 1].sid
    ensures Reached(c, files, sid)
  {
    var n := |files| - 1;
    assert files == files[..n] + [files[n]];
    if sid < files[n - 1].sid { PassedIsReached(c, files[..n], sid); }
    ReachedStays(c, files[..n], files[n], sid);
  }

  lemma {:induction false} GreedyAt(c: Config, files: seq<File>, i: nat)
    requires Greedy(c, files) && i < |files|
    ensures files[i].sid == NextSid(c, files[..i])
  {
    var n := |files| - 1;
    if i < n {
      GreedyAt(c, files[..n], i);
      assert files[..n][..i] == files[..i];
    }
  }

  lemma {:induction false} SealedIsReached(c: Config, s: State, sid: nat)
    requires Rotates(c, s) && SealedId(s, sid)
    ensures Reached(c, s.files, sid) || (sid == s.cur && !s.rxOpen)
  {
    if s.files != [] && sid < s.files[|s.files| - 1].sid { PassedIsReached(c, s.files, sid); }
  }

  lemma {:induction false} ReachableRotates(c: Config, objects: seq<nat>, s: State)
    requires Sane(c) && Reachable(c, objects, s) && !s.driver.Aborted?
    ensures Good(c, s) && Rotates(c, s)
  {
    var steps :| Valid(c, Start(objects), steps) && Run(c, Start(objects), steps) == s;
    StartGood(c, objects);
    RunRotates(c, Start(objects), steps);
  }

  /** Rotation, over whole runs and whatever the order of events: the first object goes
      to session 0, and each one goes to the session of the one before it, unless that
      session has `commit_chunk` files by then, or (with a byte threshold) that many
      bytes: then, and only then, to the next session. */
  lemma {:induction false} SessionsAreGreedy(c: Config, objects: seq<nat>, s: State, i: nat)
    requires Sane(c) && Reachable(c, objects, s) && !s.driver.Aborted? && i < |s.files|
    ensures if i == 0 then s.files[i].sid == 0
            else
              var before, sid := s.files[..i], s.files[i - 1].sid;
              var full := |FilesOf(before, sid)| >= c.chunk
                          || (c.commitBytes > 0 && BytesOf(before, sid) >= c.commitBytes);
              s.files[i].sid == if full then sid + 1 else sid
  {
    ReachableRotates(c, objects, s);
    GreedyAt(c, s.files, i);
  }

  lemma {:induction false} SlotIsFull(c: Config, s: State, sid: nat)
    requires Slots(c, s) && Rotates(c, s) && sid in s.sessions
    ensures s.sessions[sid].given == |FilesOf(s.files, sid)| && s.sessions[sid].bytes == BytesOf(s.files, sid)
    ensures s.sessions[sid].sealed ==> Reached(c, s.files, sid) || (sid == s.cur && !s.rxOpen)
  {
    assert SlotOk(c, s, sid);
    if s.sessions[sid].sealed { SealedIsReached(c, s, sid); }
  }

  /** A session is sealed only with its files or its bytes reached, but for the last
      one, at the end of the listing; what it counts is what it was given. */
  lemma {:induction false} SealedSessionsAreFull(c: Config, objects: seq<nat>, s: State, sid: nat)
    requires Sane(c) && Reachable(c, objects, s) && !s.driver.Aborted? && sid in s.sessions
    ensures var slot := s.sessions[sid];
            && slot.given == |FilesOf(s.files, sid)|
            && slot.bytes == BytesOf(s.files, sid)
            && (slot.sealed ==>
                  || slot.given >= c.chunk || (c.commitBytes > 0 && slot.bytes >= c.commitBytes)
                  || (sid == s.cur && !s.rxOpen))
  {
    ReachableRotates(c, objects, s);
    SlotIsFull(c, s, sid);
  }

  /** The same for the session of each commit. */
  lemma {:induction false} CommittedSessionsAreFull(c: Config, objects: seq<nat>, s: State, k: nat)
    requires Sane(c) && Reachable(c, objects, s) && !s.driver.Aborted? && k < |s.commits|
    ensures var sid := s.commits[k].sid;
            || |FilesOf(s.files, sid)| >= c.chunk
            || (c.commitBytes > 0 && BytesOf(s.files, sid) >= c.commitBytes)
            || (sid == s.cur && !s.rxOpen)
  {
    ReachableRotates(c, objects, s);
    var sid := s.commits[k].sid;
    assert CommitOk(s, k);
    SealedIsReached(c, s, sid);
  }
}
