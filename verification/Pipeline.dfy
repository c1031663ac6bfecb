/** The upload and commit pipeline of one copier, as a step system: the driver
    loop with its `select!` branches and the two places inside them where it
    waits, the spawned uploads, and the background commits. Any step that is
    enabled may come next. */
module Pipeline {
  import opened Wrappers

  const MAX_PENDING_COMMITS: nat := 2
  const MAX_FILE_ATTEMPTS: nat := 4

  datatype Config = Config(parallel: nat, chunk: nat, commitBytes: nat)

  /** One upload. `Pushed`: its op is in the session, `files_done` does not
      count it yet. The last three wait to be joined, or were. */
  datatype Status = Running(attempt: nat) | Pushed | Uploaded | Skipped | Failed

  datatype File = File(sid: nat, size: nat, status: Status)

  /** A rotating session. `before`: its bytes without those of its last file. */
  datatype Slot = Slot(ops: seq<nat>, given: nat, bytes: nat, before: nat, completed: nat, sealed: bool)

  datatype Phase = Finalizing | Posting | Landed | Broken

  datatype Commit = Commit(sid: nat, ops: seq<nat>, phase: Phase)

  /** Where the driver is: at `select!`, in `spawn_commit` for a session (with
      the object in hand when it came from a rotation), about to open or reuse
      the current session for an object, or at an end. */
  datatype Driver =
    | Selecting
    | Committing(sid: nat, pending: Option<nat>)
    | Opening(size: nat)
    | Finished
    | Aborted

  datatype State = State(
    incoming: seq<nat>,        // sizes of the objects the lister still sends
    rxOpen: bool,
    cur: nat,
    sessions: map<nat, Slot>,
    files: seq<File>,          // every object pulled, by arrival
    inflight: set<nat>,        // uploads not joined
    commits: seq<Commit>,      // commits not joined
    driver: Driver,
    filesDone: nat,
    committed: nat,
    pendingAck: int,
    landed: seq<nat>,          // ops the destination confirmed, by batch
    rejected: bool)            // a batch was confirmed with another count

  datatype Step =
    | Receive | Close            // rx.recv()
    | Open(ok: bool)
    | JoinUpload(i: nat)
    | JoinCommit(k: nat)
    | SpawnCommit
    | Exit
    | Retry(i: nat) | Skip(i: nat) | Fail(i: nat) | Panic(i: nat) | Push(i: nat) | CountDone(i: nat)
    | Finalize(k: nat, ok: bool)
    | Post(k: nat, confirmed: Option<nat>)

  predicate Ended(st: Status) { st.Uploaded? || st.Skipped? || st.Failed? }

  predicate Alive(s: State) { !s.driver.Finished? && !s.driver.Aborted? }

  predicate InTask(s: State, i: nat) { i in s.inflight && i < |s.files| }

  predicate Enabled(c: Config, s: State, step: Step) {
    Alive(s) &&
    match step
    case Receive => s.driver.Selecting? && s.rxOpen && |s.inflight| < c.parallel && s.incoming != []
    case Close => s.driver.Selecting? && s.rxOpen && |s.inflight| < c.parallel && s.incoming == []
    case Open(ok) => s.driver.Opening?
    case JoinUpload(i) =>
      s.driver.Selecting? && InTask(s, i) && Ended(s.files[i].status) && s.files[i].sid in s.sessions
    case JoinCommit(k) =>
      (s.driver.Selecting? || (s.driver.Committing? && |s.commits| >= MAX_PENDING_COMMITS)) &&
      k < |s.commits| && (s.commits[k].phase.Landed? || s.commits[k].phase.Broken?)
    case SpawnCommit => s.driver.Committing? && |s.commits| < MAX_PENDING_COMMITS && s.driver.sid in s.sessions
    case Exit => s.driver.Selecting? && !s.rxOpen && s.inflight == {} && s.commits == []
    case Retry(i) => InTask(s, i) && s.files[i].status.Running? && s.files[i].status.attempt < MAX_FILE_ATTEMPTS
    case Skip(i) => InTask(s, i) && s.files[i].status.Running?
    case Fail(i) => InTask(s, i) && s.files[i].status.Running? && s.files[i].status.attempt >= MAX_FILE_ATTEMPTS
    case Panic(i) => InTask(s, i) && s.files[i].status.Running?
    case Push(i) => InTask(s, i) && s.files[i].status.Running?
    case CountDone(i) => InTask(s, i) && s.files[i].status.Pushed?
    case Finalize(k, _) => k < |s.commits| && s.commits[k].phase.Finalizing?
    case Post(k, _) => k < |s.commits| && s.commits[k].phase.Posting?
  }

  predicate Full(c: Config, slot: Slot) {
    slot.given >= c.chunk || (c.commitBytes > 0 && slot.bytes >= c.commitBytes)
  }

  predicate Ready(slot: Slot) { slot.sealed && slot.completed == slot.given }

  /** seal_session, up to its spawn_commit. */
  function Seal(s: State, sid: nat): State
    requires sid in s.sessions
  {
    var slot := s.sessions[sid].(sealed := true);
    s.(sessions := s.sessions[sid := slot], pendingAck := s.pendingAck + slot.given)
  }

  function Received(c: Config, s: State, size: nat): State {
    if s.cur in s.sessions && Full(c, s.sessions[s.cur]) then
      var t := Seal(s, s.cur);
      if Ready(t.sessions[s.cur]) then t.(driver := Committing(s.cur, Some(size)))
      else t.(driver := Opening(size), cur := s.cur + 1)
    else s.(driver := Opening(size))
  }

  function Closed(s: State): State {
    var s := s.(rxOpen := false);
    if s.cur in s.sessions then
      var t := Seal(s, s.cur);
      if Ready(t.sessions[s.cur]) then t.(driver := Committing(s.cur, None)) else t
    else s
  }

  const NEW_SLOT := Slot([], 0, 0, 0, 0, false)

  function Assigned(s: State, size: nat): State {
    var slot := if s.cur in s.sessions then s.sessions[s.cur] else NEW_SLOT;
    var grown := slot.(given := slot.given + 1, before := slot.bytes, bytes := slot.bytes + size);
    s.(sessions := s.sessions[s.cur := grown], driver := Selecting,
    files := s.files + [File(s.cur, size, Running(1))], inflight := s.inflight + {|s.files|})
  }

  function Joined(s: State, i: nat): State
    requires InTask(s, i) && s.files[i].sid in s.sessions
  {
    var sid := s.files[i].sid;
    var t := s.(inflight := s.inflight - {i});
    if s.files[i].status.Failed? then t.(driver := Aborted)
    else
      var slot := s.sessions[sid].(completed := s.sessions[sid].completed + 1);
      t.(sessions := s.sessions[sid := slot], driver := if Ready(slot) then Committing(sid, None) else Selecting)
  }

  function Spawned(s: State): State
    requires s.driver.Committing? && s.driver.sid in s.sessions
  {
    var sid := s.driver.sid;
    var t := s.(sessions := s.sessions - {sid}, commits := s.commits + [Commit(sid, s.sessions[sid].ops, Finalizing)]);
    match s.driver.pending
    case None => t.(driver := Selecting)
    case Some(size) => t.(driver := Opening(size), cur := s.cur + 1)
  }

  function SetStatus(s: State, i: nat, st: Status): State
    requires i < |s.files|
  {
    s.(files := s.files[i := s.files[i].(status := st)])
  }

  /** The op goes into the session the upload was given; if that session were
      gone already, it would be lost. */
  function PushedOp(s: State, i: nat): State
    requires i < |s.files|
  {
    var sid := s.files[i].sid;
    var t := SetStatus(s, i, Pushed);
    if sid in s.sessions then
      t.(sessions := s.sessions[sid := s.sessions[sid].(ops := s.sessions[sid].ops + [i])])
    else t
  }

  function SetPhase(s: State, k: nat, p: Phase): State
    requires k < |s.commits|
  {
    s.(commits := s.commits[k := s.commits[k].(phase := p)])
  }

  function Posted(s: State, k: nat, confirmed: Option<nat>): State
    requires k < |s.commits|
  {
    var ops := s.commits[k].ops;
    match confirmed
    case None => SetPhase(s, k, Broken)
    case Some(n) =>
      var t := s.(committed := s.committed + n, pendingAck := s.pendingAck - |ops|);
      if n == |ops| then SetPhase(t, k, Landed).(landed := s.landed + ops)
      else SetPhase(t, k, Broken).(rejected := true)
  }

  function Apply(c: Config, s: State, step: Step): State
    requires Enabled(c, s, step)
  {
    match step
    case Receive => Received(c, s.(incoming := s.incoming[1..]), s.incoming[0])
    case Close => Closed(s)
    case Open(ok) =>
      if s.cur !in s.sessions && !ok then s.(driver := Aborted) else Assigned(s, s.driver.size)
    case JoinUpload(i) => Joined(s, i)
    case JoinCommit(k) =>
      var t := s.(commits := s.commits[..k] + s.commits[k + 1..]);
      if s.commits[k].phase.Broken? then t.(driver := Aborted) else t
    case SpawnCommit => Spawned(s)
    case Exit => s.(driver := Finished)
    case Retry(i) => SetStatus(s, i, Running(s.files[i].status.attempt + 1))
    case Skip(i) => SetStatus(s, i, Skipped)
    case Fail(i) => SetStatus(s, i, Failed)
    case Panic(i) => SetStatus(s, i, Failed)
    case Push(i) => PushedOp(s, i)
    case CountDone(i) => SetStatus(s, i, Uploaded).(filesDone := s.filesDone + 1)
    case Finalize(k, ok) => SetPhase(s, k, if ok then Posting else Broken)
    case Post(k, confirmed) => Posted(s, k, confirmed)
  }

  function Start(objects: seq<nat>): State {
    State(objects, true, 0, map[], [], {}, [], Selecting, 0, 0, 0, [], false)
  }

  ghost predicate Valid(c: Config, s: State, steps: seq<Step>)
    decreases |steps|
  {
    steps == [] || (Enabled(c, s, steps[0]) && Valid(c, Apply(c, s, steps[0]), steps[1..]))
  }

  ghost function Run(c: Config, s: State, steps: seq<Step>): State
    requires Valid(c, s, steps)
    decreases |steps|
  {
    if steps == [] then s else Run(c, Apply(c, s, steps[0]), steps[1..])
  }
}
