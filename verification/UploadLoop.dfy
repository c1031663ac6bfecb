/** The driver of the upload pipeline as the loop it is: it pulls objects, joins
    uploads and commits in whatever order they come, seals sessions and starts
    their commits. While it waits, the uploads and commits it started move on by
    themselves. Every state it passes is a reachable state of `Pipeline`. */
module UploadLoop {
  import opened Wrappers
  import opened Pipeline
  import opened PipelineSafety
  import opened PipelineDriver
  import opened PipelineResults

  lemma {:induction false} RunSnoc(c: Config, s: State, steps: seq<Step>, step: Step)
    requires Valid(c, s, steps) && Enabled(c, Run(c, s, steps), step)
    ensures Valid(c, s, steps + [step]) && Run(c, s, steps + [step]) == Apply(c, Run(c, s, steps), step)
    decreases |steps|
  {
    if steps == [] {
      assert [step][1..] == [] && [] + [step] == [step];
    } else {
      assert (steps + [step])[1..] == steps[1..] + [step];
      RunSnoc(c, Apply(c, s, steps[0]), steps[1..], step);
    }
  }

  lemma {:induction false} ReachStart(c: Config, objects: seq<nat>)
    ensures Reachable(c, objects, Start(objects))
  {
    assert Valid(c, Start(objects), []) && Run(c, Start(objects), []) == Start(objects);
  }

  lemma {:induction false} ReachOne(c: Config, objects: seq<nat>, s: State, step: Step, t: State)
    requires Reachable(c, objects, s) && Enabled(c, s, step) && t == Apply(c, s, step)
    ensures Reachable(c, objects, t)
  {
    var steps :| Valid(c, Start(objects), steps) && Run(c, Start(objects), steps) == s;
    RunSnoc(c, Start(objects), steps, step);
  }

  lemma {:induction false} GoodLowers(c: Config, s: State, step: Step, t: State)
    requires (s.driver.Aborted? || Good(c, s)) && Enabled(c, s, step) && t == Apply(c, s, step)
    ensures Work(t) < Work(s)
  {
    StepLowers(c, s, step, t);
  }

  /** One more step: reachable still, and closer to the end. */
  lemma {:induction false} ReachStep(c: Config, objects: seq<nat>, s: State, step: Step, t: State)
    requires Sane(c) && Reachable(c, objects, s) && Enabled(c, s, step) && t == Apply(c, s, step)
    ensures Reachable(c, objects, t) && Work(t) < Work(s)
  {
    ReachOne(c, objects, s, step, t);
    ReachableGood(c, objects, s);
    GoodLowers(c, s, step, t);
  }

  lemma {:induction false} CommitsALiveSession(c: Config, objects: seq<nat>, s: State)
    requires Sane(c) && Reachable(c, objects, s) && s.driver.Committing?
    ensures s.driver.sid in s.sessions
  {
    ReachableGood(c, objects, s);
  }

  /** A step of an upload or of a commit, not of the driver. */
  predicate OfTask(step: Step) { !OfDriver(step) }

  lemma {:induction false} TasksLeaveTheDriver(c: Config, s: State, step: Step)
    requires Enabled(c, s, step) && OfTask(step)
    ensures var t := Apply(c, s, step);
            && t.incoming == s.incoming && t.rxOpen == s.rxOpen && t.cur == s.cur && t.driver == s.driver
            && t.inflight == s.inflight && |t.files| == |s.files| && |t.commits| == |s.commits|
            && t.sessions.Keys == s.sessions.Keys
  {
  }

  class Loop {
    const c: Config
    ghost const objects: seq<nat>
    var incoming: seq<nat>
    var rxOpen: bool
    var cur: nat
    var sessions: map<nat, Slot>
    var files: seq<File>
    var inflight: set<nat>
    var commits: seq<Commit>
    var filesDone: nat
    var committed: nat
    var pendingAck: int
    var at: Driver
    var landed: seq<nat>
    var rejected: bool

    ghost function View(): State
      reads this
    {
      State(incoming, rxOpen, cur, sessions, files, inflight, commits, at, filesDone, committed, pendingAck,
            landed, rejected)
    }

    ghost predicate Valid()
      reads this
    {
      Sane(c) && Reachable(c, objects, View())
    }

    constructor (c: Config, objects: seq<nat>)
      requires Sane(c)
      ensures Valid() && at == Selecting && this.c == c && this.objects == objects
    {
      this.c, this.objects := c, objects;
      incoming, rxOpen, cur, sessions, files, inflight := objects, true, 0, map[], [], {};
      commits, filesDone, committed, pendingAck, at, landed, rejected := [], 0, 0, 0, Selecting, [], false;
      new;
      ReachStart(c, objects);
    }

    // ----- what goes on in the background -----

    /** Everything but what the driver alone writes takes its value from `t`. */
    method Copy(t: State)
      requires t.incoming == incoming && t.rxOpen == rxOpen && t.cur == cur && t.driver == at && t.inflight == inflight
      modifies `files, `sessions, `commits, `filesDone, `committed, `pendingAck, `landed, `rejected
      ensures View() == t
    {
      files, sessions, commits := t.files, t.sessions, t.commits;
      filesDone, committed, pendingAck := t.filesDone, t.committed, t.pendingAck;
      landed, rejected := t.landed, t.rejected;
    }

    /** An upload or a commit takes a step of its own. */
    method Move(step: Step)
      requires Valid() && OfTask(step) && Enabled(c, View(), step)
      modifies `files, `sessions, `commits, `filesDone, `committed, `pendingAck, `landed, `rejected
      ensures Valid() && View() == Apply(c, old(View()), step) && Work(View()) < Work(old(View()))
      ensures |files| == |old(files)| && |commits| == |old(commits)| && sessions.Keys == old(sessions).Keys
    {
      var s := State(incoming, rxOpen, cur, sessions, files, inflight, commits, at, filesDone, committed, pendingAck,
                     landed, rejected);
      TasksLeaveTheDriver(c, s, step);
      ReachStep(c, objects, s, step, Apply(c, s, step));
      Copy(Apply(c, s, step));
    }

    /** The next step of an upload that has not ended: any that it can take. */
    method MoveUpload(i: nat)
      requires Valid() && i in inflight && i < |files| && !Ended(files[i].status) && Alive(View())
      modifies `files, `sessions, `commits, `filesDone, `committed, `pendingAck, `landed, `rejected
      ensures Valid() && Work(View()) < Work(old(View())) && |files| == |old(files)| && |commits| == |old(commits)|
      ensures sessions.Keys == old(sessions).Keys
    {
      if files[i].status.Pushed? {
        Move(CountDone(i));
      } else {
        var luck: nat := *;
        var last := files[i].status.attempt >= MAX_FILE_ATTEMPTS;
        Move(if luck == 0 then Skip(i) else if luck == 1 then Panic(i)
             else if luck == 2 then (if last then Fail(i) else Retry(i)) else Push(i));
      }
    }

    /** The next step of a commit that has not ended. */
    method MoveCommit(k: nat)
      requires Valid() && k < |commits| && (commits[k].phase.Finalizing? || commits[k].phase.Posting?) && Alive(View())
      modifies `files, `sessions, `commits, `filesDone, `committed, `pendingAck, `landed, `rejected
      ensures Valid() && Work(View()) < Work(old(View())) && |files| == |old(files)| && |commits| == |old(commits)|
      ensures sessions.Keys == old(sessions).Keys
    {
      if commits[k].phase.Finalizing? {
        var ok: bool := *;
        Move(Finalize(k, ok));
      } else {
        var confirmed: Option<nat> := *;
        Move(Post(k, confirmed));
      }
    }

    // ----- commits -----

    /** Joins a commit that ended; a failed one ends the driver. */
    method JoinCommitAt(k: nat) returns (ok: bool)
      requires Valid() && Enabled(c, View(), JoinCommit(k))
      modifies `commits, `at
      ensures Valid() && Work(View()) < Work(old(View())) && |commits| == |old(commits)| - 1
      ensures ok == !old(commits)[k].phase.Broken? && at == (if ok then old(at) else Aborted)
    {
      ghost var v := View();
      ok := !commits[k].phase.Broken?;
      commits := commits[..k] + commits[k + 1..];
      if !ok { at := Aborted; }
      ReachStep(c, objects, v, JoinCommit(k), View());
    }

    /** Waits for a commit to end, and joins it. Uploads and commits move on. */
    method AwaitCommit() returns (ok: bool)
      requires Valid() && commits != [] && at.Committing? && |commits| >= MAX_PENDING_COMMITS
      modifies this
      ensures Valid() && Work(View()) < Work(old(View()))
      ensures incoming == old(incoming) && rxOpen == old(rxOpen) && cur == old(cur) && inflight == old(inflight)
      ensures |files| == |old(files)| && sessions.Keys == old(sessions).Keys && |commits| == |old(commits)| - 1
      ensures at == if ok then old(at) else Aborted
    {
      while true
        invariant Valid() && at == old(at) && |commits| == |old(commits)| && Work(View()) <= Work(old(View()))
        invariant incoming == old(incoming) && rxOpen == old(rxOpen) && cur == old(cur) && inflight == old(inflight)
        invariant |files| == |old(files)| && sessions.Keys == old(sessions).Keys
        decreases Work(View())
      {
        var k: int := *;
        if !(0 <= k < |commits|) { k := 0; }
        if commits[k].phase.Landed? || commits[k].phase.Broken? {
          ok := JoinCommitAt(k);
          return;
        }
        var i: int := *;
        if 0 <= i && i in inflight && i < |files| && !Ended(files[i].status) { MoveUpload(i); } else { MoveCommit(k); }
      }
    }

    /** Waits until there is room for one more commit. */
    method AwaitRoom() returns (ok: bool)
      requires Valid() && at.Committing?
      modifies this
      ensures Valid() && Work(View()) <= Work(old(View())) && at == (if ok then old(at) else Aborted)
      ensures incoming == old(incoming) && rxOpen == old(rxOpen) && cur == old(cur) && |files| == |old(files)|
      ensures if ok then |commits| < MAX_PENDING_COMMITS else Work(View()) < Work(old(View()))
      ensures |old(commits)| < 2 ==> ok && View() == old(View())
    {
      ok := true;
      while |commits| >= MAX_PENDING_COMMITS
        invariant Valid() && at == old(at) && Work(View()) <= Work(old(View()))
        invariant |old(commits)| < 2 ==> View() == old(View())
        invariant incoming == old(incoming) && rxOpen == old(rxOpen) && cur == old(cur) && |files| == |old(files)|
        decreases |commits|
      {
        ok := AwaitCommit();
        if !ok { return; }
      }
    }

    /** Moves the session out of the map and starts its commit. An object in hand
        then goes to the next session. */
    method TakeSession()
      requires Valid() && at.Committing? && |commits| < MAX_PENDING_COMMITS && at.sid in sessions
      modifies `sessions, `commits, `at, `cur
      ensures Valid() && Work(View()) < Work(old(View()))
      ensures sessions == old(sessions) - {old(at).sid}
      ensures commits == old(commits) + [Commit(old(at).sid, old(sessions)[old(at).sid].ops, Finalizing)]
      ensures match old(at).pending
              case None => at == Selecting && cur == old(cur)
              case Some(size) => at == Opening(size) && cur == old(cur) + 1
    {
      ghost var v := View();
      var sid := at.sid;
      commits := commits + [Commit(sid, sessions[sid].ops, Finalizing)];
      sessions := sessions - {sid};
      match at.pending {
        case None => at := Selecting;
        case Some(size) => at, cur := Opening(size), cur + 1;
      }
      ReachStep(c, objects, v, SpawnCommit, View());
    }

    /** Starts the commit of a session: at once with at most one other under way, else
        after waiting for one of two to end. */
    method SpawnCommitNow() returns (ok: bool)
      requires Valid() && at.Committing?
      modifies this
      ensures Valid() && Work(View()) < Work(old(View())) && incoming == old(incoming) && rxOpen == old(rxOpen)
      ensures ok ==>
                && |files| == |old(files)| && old(at).sid !in sessions
                && commits != [] && commits[|commits| - 1].sid == old(at).sid
      ensures ok ==> at == match old(at).pending case None => Selecting case Some(size) => Opening(size)
      ensures !ok ==> at == Aborted && |old(commits)| >= 2
      ensures ok ==> |commits| <= 2
      ensures |old(commits)| < 2 && old(at).sid in old(sessions) ==>
                commits == old(commits) + [Commit(old(at).sid, old(sessions)[old(at).sid].ops, Finalizing)]
    {
      ok := AwaitRoom();
      if !ok { return; }
      CommitsALiveSession(c, objects, View());
      TakeSession();
    }

    /** Marks the current session as done receiving files. */
    method Seal() returns (ready: bool)
      requires cur in sessions
      modifies `sessions, `pendingAck
      ensures sessions == old(sessions)[cur := old(sessions)[cur].(sealed := true)]
      ensures pendingAck == old(pendingAck) + old(sessions)[cur].given
      ensures ready == Ready(sessions[cur])
    {
      var slot := sessions[cur].(sealed := true);
      sessions := sessions[cur := slot];
      ready := slot.completed == slot.given;
      pendingAck := pendingAck + slot.given;
    }

    // ----- the branches of the select -----

    /** A new upload in the current session, which is a new one if there is none. */
    method Spawn(size: nat)
      modifies `sessions, `inflight, `files, `at
      ensures View() == Assigned(old(View()), size)
    {
      if cur !in sessions { sessions := sessions[cur := NEW_SLOT]; }
      var slot := sessions[cur];
      var grown := slot.(given := slot.given + 1, before := slot.bytes, bytes := slot.bytes + size);
      sessions := sessions[cur := grown];
      inflight := inflight + {|files|};
      files := files + [File(cur, size, Running(1))];
      at := Selecting;
    }

    /** Gives the object in hand to the current session, opening one if there is
        none, and starts its upload. */
    method OpenAndSpawn(opens: bool) returns (ok: bool)
      requires Valid() && at.Opening?
      modifies this
      ensures Valid() && Work(View()) < Work(old(View()))
      ensures at == (if ok then Selecting else Aborted) && incoming == old(incoming) && rxOpen == old(rxOpen)
      ensures ok ==>
                && cur in sessions && files == old(files) + [File(cur, old(at).size, Running(1))]
                && |old(files)| in inflight
    {
      ghost var v := View();
      ok := cur in sessions || opens;
      if !ok {
        at := Aborted;
      } else {
        Spawn(at.size);
      }
      ReachStep(c, objects, v, Open(opens), View());
    }

    /** Seals the current session exactly when it was given `commit_chunk` files, or, with
        a byte threshold, that many bytes. The object then waits for the session's commit,
        if all its files are done, or is for the next session; else it is for this one. */
    method Rotate(size: nat)
      modifies `sessions, `pendingAck, `at, `cur
      ensures
        if old(cur in sessions && (sessions[cur].given >= c.chunk
                                   || (c.commitBytes > 0 && sessions[cur].bytes >= c.commitBytes))) then
          var slot := old(sessions[cur]);
          && sessions == old(sessions)[old(cur) := slot.(sealed := true)]
          && pendingAck == old(pendingAck) + slot.given
          && if slot.completed == slot.given then at == Committing(cur, Some(size)) && cur == old(cur)
             else at == Opening(size) && cur == old(cur) + 1
        else at == Opening(size) && cur == old(cur) && sessions == old(sessions) && pendingAck == old(pendingAck)
    {
      if cur in sessions
         && (sessions[cur].given >= c.chunk || (c.commitBytes > 0 && sessions[cur].bytes >= c.commitBytes)) {
        var ready := Seal();
        if ready { at := Committing(cur, Some(size)); } else { at, cur := Opening(size), cur + 1; }
      } else {
        at := Opening(size);
      }
    }

    /** Takes the next object in hand, and rotates. */
    method Pull()
      requires Valid() && Enabled(c, View(), Receive)
      modifies this
      ensures Valid() && Work(View()) < Work(old(View())) && View() == Apply(c, old(View()), Receive)
      ensures
        if old(cur in sessions && (sessions[cur].given >= c.chunk
                                   || (c.commitBytes > 0 && sessions[cur].bytes >= c.commitBytes))) then
          var slot := old(sessions[cur]);
          && sessions == old(sessions)[old(cur) := slot.(sealed := true)]
          && if slot.completed == slot.given then at == Committing(cur, Some(old(incoming)[0])) && cur == old(cur)
             else at == Opening(old(incoming)[0]) && cur == old(cur) + 1
        else at == Opening(old(incoming)[0]) && cur == old(cur) && sessions == old(sessions)
    {
      ghost var v := View();
      var size := incoming[0];
      incoming := incoming[1..];
      Rotate(size);
      ReachStep(c, objects, v, Receive, View());
    }

    /** The next object is in hand: to be given to a session, or after a commit. */
    method TakeInHand()
      requires Valid() && Enabled(c, View(), Receive)
      modifies this
      ensures Valid() && Work(View()) < Work(old(View()))
      ensures incoming == old(incoming)[1..] && rxOpen == old(rxOpen) && files == old(files)
      ensures at == Opening(old(incoming)[0]) || (at.Committing? && at.pending == Some(old(incoming)[0]))
    {
      Pull();
    }

    /** The next object: the session it fills up is committed at once if all its
        files are done, and the object's upload starts in the next one. */
    method OnObject(opens: bool) returns (ok: bool)
      requires Valid() && Enabled(c, View(), Receive)
      modifies this
      ensures Valid() && Work(View()) < Work(old(View())) && at == (if ok then Selecting else Aborted)
      ensures incoming == old(incoming)[1..] && rxOpen == old(rxOpen)
      ensures ok ==> |files| == |old(files)| + 1 && files[|old(files)|].size == old(incoming)[0]
    {
      TakeInHand();
      if at.Committing? {
        ok := SpawnCommitNow();
        if !ok { return; }
      }
      ok := OpenAndSpawn(opens);
    }

    method CloseAndSeal()
      requires Valid() && Enabled(c, View(), Close)
      modifies `rxOpen, `sessions, `pendingAck, `at
      ensures Valid() && Work(View()) < Work(old(View())) && View() == Apply(c, old(View()), Close)
    {
      ghost var v := View();
      rxOpen := false;
      if cur in sessions {
        var ready := Seal();
        if ready { at := Committing(cur, None); }
      }
      ReachStep(c, objects, v, Close, View());
    }

    /** The listing is over: the last session is sealed. */
    method OnClosed() returns (ok: bool)
      requires Valid() && Enabled(c, View(), Close)
      modifies this
      ensures Valid() && Work(View()) < Work(old(View())) && at == (if ok then Selecting else Aborted)
      ensures !rxOpen && incoming == []
    {
      CloseAndSeal();
      ok := true;
      if at.Committing? { ok := SpawnCommitNow(); }
    }

    method TakeUpload(i: nat)
      requires Valid() && Enabled(c, View(), JoinUpload(i))
      modifies `inflight, `sessions, `at
      ensures Valid() && Work(View()) < Work(old(View())) && View() == Apply(c, old(View()), JoinUpload(i))
    {
      ghost var v := View();
      var sid := files[i].sid;
      inflight := inflight - {i};
      if files[i].status.Failed? {
        at := Aborted;
      } else {
        var slot := sessions[sid].(completed := sessions[sid].completed + 1);
        sessions := sessions[sid := slot];
        if slot.sealed && slot.completed == slot.given { at := Committing(sid, None); }
      }
      ReachStep(c, objects, v, JoinUpload(i), View());
    }

    /** An upload ended: it counts for its session, and the last one of a sealed
        session starts its commit; a failed one ends the driver. */
    method OnUpload(i: nat) returns (ok: bool)
      requires Valid() && Enabled(c, View(), JoinUpload(i))
      modifies this
      ensures Valid() && Work(View()) < Work(old(View())) && at == (if ok then Selecting else Aborted)
      ensures old(files)[i].status.Failed? ==> !ok
      ensures ok ==>
                var sid := old(files)[i].sid;
                var slot := old(sessions)[sid].(completed := old(sessions)[sid].completed + 1);
                if slot.sealed && slot.completed == slot.given
                then sid !in sessions && commits != [] && commits[|commits| - 1].sid == sid
                else
                  && sessions == old(sessions)[sid := slot] && commits == old(commits)
                  && inflight == old(inflight) - {i}
    {
      TakeUpload(i);
      ok := !at.Aborted?;
      if at.Committing? { ok := SpawnCommitNow(); }
    }

    /** Something that is under way: an upload or a commit moves on, or is joined. */
    method Join() returns (ok: bool)
      requires Valid() && at == Selecting && (inflight != {} || commits != [])
      modifies this
      ensures Valid() && Work(View()) < Work(old(View())) && at == if ok then Selecting else Aborted
    {
      ReachableGood(c, objects, View());
      var uploads: bool := *;
      if inflight != {} && (uploads || commits == []) {
        var i :| i in inflight;
        ok := TouchUpload(i);
      } else {
        var k: int := *;
        ok := TouchCommit(if 0 <= k < |commits| then k else 0);
      }
    }

    method TouchUpload(i: nat) returns (ok: bool)
      requires Valid() && at == Selecting && i in inflight && i < |files| && files[i].sid in sessions
      modifies this
      ensures Valid() && Work(View()) < Work(old(View())) && at == if ok then Selecting else Aborted
    {
      ok := true;
      if Ended(files[i].status) { ok := OnUpload(i); } else { MoveUpload(i); }
    }

    method TouchCommit(k: nat) returns (ok: bool)
      requires Valid() && at == Selecting && k < |commits|
      modifies this
      ensures Valid() && Work(View()) < Work(old(View())) && at == if ok then Selecting else Aborted
    {
      ok := true;
      if commits[k].phase.Landed? || commits[k].phase.Broken? { ok := JoinCommitAt(k); } else { MoveCommit(k); }
    }

    /** The channel: an object, or its end. */
    method PullOrClose() returns (ok: bool)
      requires Valid() && at == Selecting && rxOpen && |inflight| < c.parallel
      modifies this
      ensures Valid() && Work(View()) < Work(old(View())) && at == if ok then Selecting else Aborted
    {
      var opens: bool := *;
      if incoming != [] { ok := OnObject(opens); } else { ok := OnClosed(); }
    }

    method Finish()
      requires Valid() && at == Selecting && !rxOpen && inflight == {} && commits == []
      modifies `at
      ensures Valid() && at == Finished
    {
      ghost var v := View();
      at := Finished;
      ReachStep(c, objects, v, Exit, View());
    }

    /** The loop. Whatever order objects, uploads and commits come in, it ends; and
        when it ends well, every session is committed, every object received is
        one confirmed op or one source that was gone, and the confirmed count is
        the uploaded count. */
    method UploadConsumer() returns (ok: bool)
      requires Valid() && at == Selecting
      modifies this
      ensures Valid() && at == if ok then Finished else Aborted
      ensures ok ==> sessions == map[] && |files| == |objects| && committed == filesDone == |landed|
      ensures ok ==> forall i :: 0 <= i < |objects| ==>
                files[i].size == objects[i] && (i in landed <==> files[i].status.Uploaded?)
                && (files[i].status.Uploaded? || files[i].status.Skipped?)
      ensures ok ==> pendingAck == |set i: nat | i < |files| && files[i].status.Skipped?|
    {
      while rxOpen || inflight != {} || commits != []
        invariant Valid() && at == Selecting
        decreases Work(View())
      {
        var first: bool := *;
        SelectHasABranch(c, View());
        if rxOpen && |inflight| < c.parallel && (first || (inflight == {} && commits == [])) {
          ok := PullOrClose();
        } else {
          ok := Join();
        }
        if !ok { return; }
      }
      Finish();
      FinishedMeansCommitted(c, objects, View());
      ok := true;
    }
  }
}
