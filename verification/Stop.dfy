/** How a copier learns which planner to outlive no longer: the link handed over
    in its environment, and the watch on the planner's job. */
module Stop {
  import opened Wrappers
  import opened Fleet
  import opened FleetPlanner

  const MIN_WATCH_EVERY: nat := 60

  /** The planner's job, and the watch period in seconds. */
  datatype Link = Link(namespace: string, jobId: string, every: nat)

  // ----- numbers -----

  function Digit(d: nat): char
    requires d < 10
  {
    "0123456789"[d]
  }

  function Decimal(n: nat): string {
    if n < 10 then [Digit(n)] else Decimal(n / 10) + [Digit(n % 10)]
  }

  predicate IsDigit(c: char) { '0' <= c <= '9' }

  function DigitValue(c: char): nat
    requires IsDigit(c)
  {
    c as int - '0' as int
  }

  function Value(s: string): nat
    requires forall i :: 0 <= i < |s| ==> IsDigit(s[i])
  {
    if s == "" then 0 else 10 * Value(s[..|s| - 1]) + DigitValue(s[|s| - 1])
  }

  /** An unsigned 64-bit number, with an optional plus sign. */
  function ParseU64(s: string): Option<U64> {
    var t := if s != "" && s[0] == '+' then s[1..] else s;
    if t != "" && (forall i :: 0 <= i < |t| ==> IsDigit(t[i])) && Value(t) <= U64_MAX then Some(Value(t)) else None
  }

  lemma {:induction false} DecimalReads(n: nat)
    ensures Decimal(n) != "" && (forall i :: 0 <= i < |Decimal(n)| ==> IsDigit(Decimal(n)[i])) && Value(Decimal(n)) == n
  {
    if n < 10 {
      assert [Digit(n)][..0] == "";
    } else {
      var s := Decimal(n / 10);
      DecimalReads(n / 10);
      assert (s + [Digit(n % 10)])[..|s|] == s;
    }
  }

  // ----- the link in the environment -----

  /** White space as Unicode has it. */
  predicate Blank(c: char) {
    var n := c as int;
    || 0x9 <= n <= 0xd || n == 0x20 || n == 0x85 || n == 0xa0 || n == 0x1680 || 0x2000 <= n <= 0x200a
    || n == 0x2028 || n == 0x2029 || n == 0x202f || n == 0x205f || n == 0x3000
  }

  function TrimBlanks(s: string): string
    decreases |s|
  {
    if s != "" && Blank(s[0]) then TrimBlanks(s[1..])
    else if s != "" && Blank(s[|s| - 1]) then TrimBlanks(s[..|s| - 1])
    else s
  }

  function Env(l: Link): (string, string) { (l.namespace + "/" + l.jobId, Decimal(l.every)) }

  /** Before and after the first slash. */
  function SplitOnce(s: string): Option<(string, string)> {
    if s == "" then None
    else if s[0] == '/' then Some(("", s[1..]))
    else
      match SplitOnce(s[1..])
      case None => None
      case Some((a, b)) => Some(([s[0]] + a, b))
  }

  function Period(every: Option<string>): nat {
    if every.None? then MIN_WATCH_EVERY
    else
      match ParseU64(TrimBlanks(every.value))
      case Some(n) => if n > 0 then n else MIN_WATCH_EVERY
      case None => MIN_WATCH_EVERY
  }

  function Parse(job: string, every: Option<string>): Option<Link> {
    match SplitOnce(TrimBlanks(job))
    case None => None
    case Some((namespace, jobId)) =>
      if namespace == "" || jobId == "" || '/' in jobId then None
      else Some(Link(namespace, jobId, Period(every)))
  }

  lemma {:induction false} SplitOnceAt(a: string, b: string)
    requires '/' !in a
    ensures SplitOnce(a + "/" + b) == Some((a, b))
  {
    var s := a + "/" + b;
    if a == "" {
      assert s[1..] == b;
    } else {
      assert s[1..] == a[1..] + "/" + b && a == [a[0]] + a[1..] && a[0] in a;
      SplitOnceAt(a[1..], b);
    }
  }

  lemma {:induction false} SplitOnceIs(s: string)
    requires SplitOnce(s).Some?
    ensures var (a, b) := SplitOnce(s).value; s == a + "/" + b && '/' !in a
  {
    if s[0] != '/' {
      SplitOnceIs(s[1..]);
      var (a, b) := SplitOnce(s[1..]).value;
      assert s == [s[0]] + s[1..];
      assert [s[0]] + a + "/" + b == [s[0]] + (a + "/" + b);
    }
  }

  lemma {:induction false} TrimIs(s: string)
    ensures var t := TrimBlanks(s); t != "" ==> !Blank(t[0]) && !Blank(t[|t| - 1])
    ensures |TrimBlanks(s)| <= |s|
    ensures s == "" || (!Blank(s[0]) && !Blank(s[|s| - 1])) <==> TrimBlanks(s) == s
    decreases |s|
  {
    if s != "" && Blank(s[0]) {
      TrimIs(s[1..]);
    } else if s != "" && Blank(s[|s| - 1]) {
      TrimIs(s[..|s| - 1]);
    }
  }

  /** What a link must be to survive the environment: no slash in a name, no blank
      at the ends, and a period that is a positive 64-bit number. */
  ghost predicate Sendable(l: Link) {
    && l.namespace != "" && '/' !in l.namespace && !Blank(l.namespace[0])
    && l.jobId != "" && '/' !in l.jobId && !Blank(l.jobId[|l.jobId| - 1])
    && 0 < l.every <= U64_MAX
  }

  lemma {:induction false} PeriodReads(every: nat)
    ensures Period(Some(Decimal(every))) == if 0 < every <= U64_MAX then every else MIN_WATCH_EVERY
  {
    DecimalReads(every);
    var s := Decimal(every);
    assert IsDigit(s[0]) && IsDigit(s[|s| - 1]) && !Blank(s[0]) && !Blank(s[|s| - 1]);
    TrimIs(s);
  }

  /** A link survives the trip through the environment exactly when it is sendable; a
      period that is missing, zero or too large is read as a minute. */
  lemma {:induction false} LinkRoundTrip(l: Link)
    ensures Parse(Env(l).0, Some(Env(l).1)) == Some(l) <==> Sendable(l)
    ensures Parse(Env(l).0, Some(Env(l).1)).Some? && (l.every == 0 || l.every > U64_MAX) ==>
              Parse(Env(l).0, Some(Env(l).1)).value.every == 60
    ensures Parse(Env(l).0, None).Some? ==> Parse(Env(l).0, None).value.every == 60
  {
    var s := Env(l).0;
    TrimIs(s);
    PeriodReads(l.every);
    if Sendable(l) {
      assert s[0] == l.namespace[0] && s[|s| - 1] == l.jobId[|l.jobId| - 1];
      SplitOnceAt(l.namespace, l.jobId);
    }
    if Parse(s, Some(Env(l).1)) == Some(l) {
      SplitOnceIs(TrimBlanks(s));
      assert TrimBlanks(s) == s;
      assert s[0] == l.namespace[0] && s[|s| - 1] == l.jobId[|l.jobId| - 1];
    }
  }

  // ----- the watch -----

  /** An answer that the planner has ended. */
  predicate SaysEnded(call: Call) { call.Asked? && call.told.Some? && Terminal(call.told.value) }

  /** A request for the planner's stage. */
  predicate AsksAbout(call: Call, planner: nat) { call.Asked? && call.j == planner }

  /** What was sent since the log was `before`: only requests for the planner's stage,
      none of which but the last, if it was to end the watch, was answered with an
      end. */
  ghost predicate Watched(before: seq<Call>, now: seq<Call>, planner: nat, ended: Option<Stage>, polls: nat) {
    && before <= now && |now| - |before| <= polls
    && (forall k :: |before| <= k < |now| ==> AsksAbout(now[k], planner))
    && (forall k :: |before| <= k < |now| && (ended.None? || k < |now| - 1) ==> !SaysEnded(now[k]))
    && (if ended.None? then |now| == |before| + polls
        else |before| < |now| && SaysEnded(now[|now| - 1]) && now[|now| - 1].told == ended)
  }

  /** Polls the planner's job until it is seen to have ended, for at most `polls`
      polls; a poll that fails stops nothing. A copier stops only for a planner
      that really ended, and that stays ended, and at the first answer that says so. */
  method WatchPlanner(server: JobServer, planner: nat, polls: nat) returns (ended: Option<Stage>)
    requires planner < |server.jobs|
    modifies server
    ensures planner < |server.jobs| && Moves(old(server.jobs), server.jobs)
    ensures Watched(old(server.log), server.log, planner, ended, polls)
    ensures ended.Some? ==> Terminal(ended.value) && server.jobs[planner].stage == ended.value
    ensures Terminal(old(server.jobs)[planner].stage) && ended.Some? ==> ended.value == old(server.jobs)[planner].stage
  {
    ended := None;
    for n := 0 to polls
      invariant planner < |server.jobs| && Moves(old(server.jobs), server.jobs)
      invariant Watched(old(server.log), server.log, planner, None, n)
    {
      server.Elapse();
      var told := server.JobStatus(planner);
      if told.Some? && Terminal(told.value) { return told; }
    }
  }

  // ----- the copier's own end -----

  /** How a copier ends whose planner has ended; none of it is a success. */
  datatype End = NoJobId | CancelRefused | PlannerEnded(stage: Stage)

  /** Cancels the copier's own job, whose id the job's environment has. */
  method CancelSelf(server: JobServer, self: Option<nat>, planner: Stage) returns (end: End)
    requires self.Some? ==> self.value < |server.jobs|
    modifies server
    ensures Moves(old(server.jobs), server.jobs)
    ensures if self.None? then end == NoJobId && server.log == old(server.log)
            else
              && (end == CancelRefused || end == PlannerEnded(planner))
              && server.log == old(server.log) + [CancelSent(self.value, end.PlannerEnded?)]
  {
    if self.None? { return NoJobId; }
    var accepted := server.CancelJob(self.value);
    end := if accepted then PlannerEnded(planner) else CancelRefused;
  }

  /** A copier under its watch, for as long as its copy takes: `polls` polls. As long
      as no answer says that the planner has ended it cancels nothing; at the first
      one that does, the very next request is the cancel of its own job, and the copy
      is over. */
  method UnderWatch(server: JobServer, planner: nat, self: Option<nat>, polls: nat)
    returns (end: Option<End>, ghost ended: Option<Stage>, ghost watched: seq<Call>)
    requires planner < |server.jobs| && (self.Some? ==> self.value < |server.jobs|)
    modifies server
    ensures planner < |server.jobs| && Moves(old(server.jobs), server.jobs)
    ensures Watched(old(server.log), watched, planner, ended, polls) && end.Some? == ended.Some?
    ensures ended.Some? ==> Terminal(ended.value) && server.jobs[planner].stage == ended.value
    ensures if ended.None? || self.None? then server.log == watched
            else server.log == watched + [CancelSent(self.value, end == Some(PlannerEnded(ended.value)))]
  {
    end := None;
    var stage := WatchPlanner(server, planner, polls);
    ended, watched := stage, server.log;
    if stage.Some? {
      var e := CancelSelf(server, self, stage.value);
      end := Some(e);
    }
  }
}
