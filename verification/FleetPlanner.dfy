/** The planner's side of the fleet: the methods that poll, wait, start and
    restart copiers, each a run of the step system of `Fleet`, and the job
    server they talk to, which may do anything that server may do. */
module FleetPlanner {
  import opened Wrappers
  import opened Fleet
  import opened FleetSafety
  import opened FleetResults

  /** The actual stages move freely, but a terminal one stays; there may be more
      jobs. */
  ghost predicate Moves(was: seq<Job>, now: seq<Job>) {
    && |was| <= |now|
    && forall j :: 0 <= j < |was| ==>
         && now[j].range == was[j].range && now[j].heavy == was[j].heavy
         && (Terminal(was[j].stage) ==> now[j].stage == was[j].stage)
  }

  /** Time passes: only the start in flight can make one more job. */
  ghost predicate Passes(was: seq<Job>, wasFlight: Option<Start>, now: seq<Job>, flight: Option<Start>) {
    && Moves(was, now)
    && ((|now| == |was| && flight == wasFlight)
        || (&& |now| == |was| + 1 && wasFlight.Some? && wasFlight.value.job.None?
            && now[|was|].range == wasFlight.value.range && now[|was|].heavy == wasFlight.value.heavy
            && flight == Some(wasFlight.value.(job := Some(|was|)))))
  }

  ghost predicate HonestListing(jobs: seq<Job>, listing: map<nat, Stage>) {
    forall j :: j in listing ==> j < |jobs| && Honest(jobs[j].stage, listing[j])
  }

  /** A request to the job server, with its answer. */
  datatype Call =
    | Listed(shown: Option<map<nat, Stage>>)
    | Asked(j: nat, told: Option<Stage>)
    | CancelSent(j: nat, accepted: bool)
    | RunSent(range: nat, heavy: bool, info: Option<(nat, Stage)>)

  /** Everything is left to chance that the job server does not guarantee. `flight` is
      a start whose answer has not reached the planner, and may never. `log` is every
      request the server got, in order. */
  class JobServer {
    var jobs: seq<Job>
    var flight: Option<Start>
    ghost var log: seq<Call>

    constructor ()
      ensures jobs == [] && flight == None && log == []
    {
      jobs, flight, log := [], None, [];
    }

    /** Time passes. */
    method Elapse()
      modifies `jobs, `flight
      ensures Passes(old(jobs), old(flight), jobs, flight)
    {
      var stages: nat -> Stage := *;
      var was := jobs;
      jobs := seq(|was|, j requires 0 <= j < |was| =>
        if Terminal(was[j].stage) then was[j] else was[j].(stage := stages(j)));
      var arrives: bool := *;
      if arrives && flight.Some? && flight.value.job.None? {
        var actual: Stage := *;
        jobs := jobs + [Job(flight.value.range, flight.value.heavy, actual)];
        flight := Some(flight.value.(job := Some(|was|)));
      }
    }

    /** One page of recent jobs, or an error. A job may be missing from it. */
    method ListJobs() returns (shown: Option<map<nat, Stage>>)
      modifies this
      ensures Passes(old(jobs), old(flight), jobs, flight) && (shown.Some? ==> HonestListing(jobs, shown.value))
      ensures log == old(log) + [Listed(shown)]
    {
      Elapse();
      var lost: bool := *;
      if lost {
        shown := None;
      } else {
        var onPage: set<nat> := *;
        var late: set<nat> := *;
        var seen: map<nat, Stage> :=
          map j: nat | j in onPage && j < |jobs| :: if j in late then Live("RUNNING") else jobs[j].stage;
        shown := Some(seen);
      }
      log := log + [Listed(shown)];
    }

    method JobStatus(j: nat) returns (told: Option<Stage>)
      requires j < |jobs|
      modifies this
      ensures Passes(old(jobs), old(flight), jobs, flight) && (told.Some? ==> Honest(jobs[j].stage, told.value))
      ensures log == old(log) + [Asked(j, told)]
    {
      Elapse();
      var lost: bool := *;
      var late: Option<string> := *;
      told := if lost then None else if late.Some? then Some(Live(late.value)) else Some(jobs[j].stage);
      log := log + [Asked(j, told)];
    }

    /** Takes a cancel, or fails to. */
    method CancelJob(j: nat) returns (accepted: bool)
      requires j < |jobs|
      modifies this
      ensures Passes(old(jobs), old(flight), jobs, flight) && log == old(log) + [CancelSent(j, accepted)]
    {
      Elapse();
      accepted := *;
      log := log + [CancelSent(j, accepted)];
    }

    /** Takes a start. Its answer, the job's id and stage, reaches the planner or does
        not; if it does not, the job is there, or is still to come, or never comes. */
    method RunJob(range: nat, heavy: bool) returns (info: Option<(nat, Stage)>)
      requires flight.None?
      modifies this
      ensures info.None? ==> Passes(old(jobs), Some(Start(range, heavy, None)), jobs, flight)
      ensures info.Some? ==>
                && flight.None? && info.value.0 == |old(jobs)| < |jobs| && Honest(jobs[|old(jobs)|].stage, info.value.1)
                && Passes(old(jobs), Some(Start(range, heavy, None)), jobs,
                          Some(Start(range, heavy, Some(|old(jobs)|))))
      ensures log == old(log) + [RunSent(range, heavy, info)]
    {
      var id: nat := |jobs|;
      flight := Some(Start(range, heavy, None));
      Elapse();
      var answered: bool := *;
      if answered && flight.value.job.Some? {
        var late: bool := *;
        info, flight := Some((id, if late then Live("RUNNING") else jobs[id].stage)), None;
      } else {
        info := None;
      }
      log := log + [RunSent(range, heavy, info)];
    }
  }

  // ----- runs of the server -----

  lemma {:induction false} MovesReachable(maxInflight: nat, s: State, now: seq<Job>, n: nat)
    requires Reachable(maxInflight, s) && Moves(s.jobs, now) && |now| == |s.jobs| && n <= |now|
    ensures Reachable(maxInflight, s.(jobs := now[..n] + s.jobs[n..]))
  {
    if n == 0 {
      assert now[..0] + s.jobs[0..] == s.jobs;
    } else {
      var k := n - 1;
      MovesReachable(maxInflight, s, now, k);
      var mid := s.(jobs := now[..k] + s.jobs[k..]);
      assert mid.jobs[k] == s.jobs[k];
      if Terminal(s.jobs[k].stage) {
        assert now[..n] + s.jobs[n..] == mid.jobs;
      } else {
        ReachableStep(maxInflight, mid, Server(k, now[k].stage));
        assert now[..n] + s.jobs[n..] == mid.jobs[k := now[k]];
      }
    }
  }

  lemma {:induction false} Moved(maxInflight: nat, s: State, now: seq<Job>, flight: Option<Start>)
    requires Reachable(maxInflight, s) && Passes(s.jobs, s.flight, now, flight)
    ensures Reachable(maxInflight, s.(jobs := now, flight := flight))
  {
    var n := |s.jobs|;
    MovesReachable(maxInflight, s, now[..n], n);
    assert now[..n][..n] + s.jobs[n..] == now[..n];
    if |now| == n {
      assert now[..n] == now;
    } else {
      ReachableStep(maxInflight, s.(jobs := now[..n]), Create(now[n].stage));
      assert now[..n] + [now[n]] == now;
    }
  }

  /** A start that was sent, by a listing or by the monitoring, and time passed. */
  lemma {:induction false} Sent(maxInflight: nat, s: State, step: Step, now: seq<Job>, flight: Option<Start>)
    requires Reachable(maxInflight, s) && Enabled(maxInflight, s, step) && (step.Launch? || step.Relaunch?)
    requires Passes(s.jobs, Apply(maxInflight, s, step).flight, now, flight)
    ensures Reachable(maxInflight, Apply(maxInflight, s, step).(jobs := now, flight := flight))
  {
    ReachableStep(maxInflight, s, step);
    Moved(maxInflight, Apply(maxInflight, s, step), now, flight);
  }

  /** Its answer came. */
  lemma {:induction false} Answered(maxInflight: nat, s: State, step: Step, now: seq<Job>, told: Stage)
    requires Reachable(maxInflight, s) && Enabled(maxInflight, s, step) && (step.Launch? || step.Relaunch?)
    requires var n, f := |s.jobs|, Apply(maxInflight, s, step).flight;
             n < |now| && Honest(now[n].stage, told) && Passes(s.jobs, f, now, Some(f.value.(job := Some(n))))
    ensures var t := Apply(maxInflight, s, step);
            && t.flight.value.range <= |t.copiers|
            && Reachable(maxInflight, t.(jobs := now, flight := None,
                                         copiers := Followed(t.copiers, t.flight.value, |s.jobs|, told)))
  {
    var t, n := Apply(maxInflight, s, step), |s.jobs|;
    var f := Some(t.flight.value.(job := Some(n)));
    Sent(maxInflight, s, step, now, f);
    ReachableStep(maxInflight, t.(jobs := now, flight := f), Answer(told));
  }

  /** No answer came, and the planner stops. */
  lemma {:induction false} Unanswered(maxInflight: nat, s: State, step: Step, now: seq<Job>, flight: Option<Start>)
    requires Reachable(maxInflight, s) && Enabled(maxInflight, s, step) && (step.Launch? || step.Relaunch?)
    requires Passes(s.jobs, Apply(maxInflight, s, step).flight, now, flight)
    ensures Reachable(maxInflight, Apply(maxInflight, s, step).(jobs := now, flight := flight, phase := Stopping))
  {
    Sent(maxInflight, s, step, now, flight);
    ReachableStep(maxInflight, Apply(maxInflight, s, step).(jobs := now, flight := flight), Stop);
  }

  // ----- polls -----

  ghost predicate Ascending(queue: seq<nat>, bound: nat) {
    && (forall m :: 0 <= m < |queue| ==> queue[m] < bound)
    && (forall m, n :: 0 <= m < n < |queue| ==> queue[m] < queue[n])
  }

  /** What a listing says of a copier. */
  function SeenIn(w: Copier, shown: map<nat, Stage>): Copier {
    if Running(w) && w.job in shown then w.(seen := shown[w.job]) else w
  }

  /** `missing` are the running copiers that the listing does not show, in order. */
  ghost predicate MissingFrom(was: seq<Copier>, shown: map<nat, Stage>, missing: seq<nat>) {
    && Ascending(missing, |was|)
    && forall i: nat :: i in missing <==> i < |was| && Running(was[i]) && was[i].job !in shown
  }

  function Shown(listing: Option<map<nat, Stage>>): map<nat, Stage> {
    if listing.Some? then listing.value else map[]
  }

  /** After the first `n` of the missing copiers were asked about: `asks` are a poll
      for each, and what they answered is written down. */
  ghost predicate PolledSome(was: seq<Copier>, now: seq<Copier>, listing: Option<map<nat, Stage>>, asks: seq<Call>,
                             missing: seq<nat>, n: nat)
  {
    && |now| == |was| && |asks| == n <= |missing| && MissingFrom(was, Shown(listing), missing)
    && (forall m :: 0 <= m < n ==> AskedAbout(was[missing[m]], asks[m], now[missing[m]]))
    && (forall m :: n <= m < |missing| ==> now[missing[m]] == was[missing[m]])
    && (forall i: nat :: i < |was| && i !in missing ==> now[i] == SeenIn(was[i], Shown(listing)))
  }

  predicate AskedAbout(w: Copier, call: Call, now: Copier) {
    call.Asked? && call.j == w.job && now == if call.told.Some? then w.(seen := call.told.value) else w
  }

  /** One listing, one poll for each running copier it does not show, and all their
      answers written down. */
  ghost predicate Polled(was: seq<Copier>, now: seq<Copier>, calls: seq<Call>) {
    && calls != [] && calls[0].Listed?
    && exists missing :: PolledSome(was, now, calls[0].shown, calls[1..], missing, |missing|)
  }

  /** Copiers keep their ranges' weights. */
  ghost predicate SameRanges(was: seq<Copier>, now: seq<Copier>) {
    |was| == |now| && forall i :: 0 <= i < |was| ==> now[i].heavy == was[i].heavy
  }

  lemma {:induction false} PolledKeepsRanges(was: seq<Copier>, now: seq<Copier>, calls: seq<Call>)
    requires Polled(was, now, calls)
    ensures SameRanges(was, now)
  {
    var missing :| PolledSome(was, now, calls[0].shown, calls[1..], missing, |missing|);
    forall i | 0 <= i < |was| ensures now[i].heavy == was[i].heavy {
      if i in missing {
        var m :| 0 <= m < |missing| && missing[m] == i;
        assert AskedAbout(was[missing[m]], calls[1..][m], now[missing[m]]);
      }
    }
  }

  lemma {:induction false} PolledNone(was: seq<Copier>, now: seq<Copier>, listing: Option<map<nat, Stage>>,
                                      missing: seq<nat>)
    requires |now| == |was| && MissingFrom(was, Shown(listing), missing)
    requires forall i :: 0 <= i < |now| ==> now[i] == SeenIn(was[i], Shown(listing))
    ensures PolledSome(was, now, listing, [], missing, 0)
  {
    forall m | 0 <= m < |missing| ensures now[missing[m]] == was[missing[m]] { assert missing[m] in missing; }
  }

  lemma {:induction false} NextToAsk(was: seq<Copier>, now: seq<Copier>, listing: Option<map<nat, Stage>>,
                                     asks: seq<Call>, missing: seq<nat>, n: nat)
    requires PolledSome(was, now, listing, asks, missing, n) && n < |missing|
    ensures missing[n] < |now| && now[missing[n]] == was[missing[n]] && Running(was[missing[n]])
  {
    assert missing[n] in missing;
  }

  lemma {:induction false} PolledNext(was: seq<Copier>, now: seq<Copier>, listing: Option<map<nat, Stage>>,
                                      asks: seq<Call>, missing: seq<nat>, n: nat, told: Option<Stage>,
                                      after: seq<Copier>)
    requires PolledSome(was, now, listing, asks, missing, n) && n < |missing|
    requires after == if told.Some? then now[missing[n] := now[missing[n]].(seen := told.value)] else now
    ensures PolledSome(was, after, listing, asks + [Asked(was[missing[n]].job, told)], missing, n + 1)
  {
    assert missing[n] in missing;
    forall m | 0 <= m < |missing| && m != n ensures after[missing[m]] == now[missing[m]] {
      assert missing[m] != missing[n];
    }
  }

  /** What copier `w` is known as after the answers `calls`, the first of them a listing:
      a copier that has ended stays as it was; a running one that the listing shows has
      the stage shown; one that it does not show was asked about, and has the stage
      answered, if there was an answer. */
  ghost predicate Heard(w: Copier, now: Copier, calls: seq<Call>)
    requires calls != [] && calls[0].Listed?
  {
    if !w.seen.Live? then now == w
    else if calls[0].shown.Some? && w.job in calls[0].shown.value then now == w.(seen := calls[0].shown.value[w.job])
    else exists m :: 0 < m < |calls| && AskedOf(w, now, calls[m])
  }

  ghost predicate AskedOf(w: Copier, now: Copier, call: Call) {
    call.Asked? && call.j == w.job && (if call.told.Some? then now == w.(seen := call.told.value) else now == w)
  }

  lemma {:induction false} PolledHeard(was: seq<Copier>, now: seq<Copier>, calls: seq<Call>, i: nat)
    requires Polled(was, now, calls) && i < |was|
    ensures |now| == |was| && Heard(was[i], now[i], calls)
  {
    var missing :| PolledSome(was, now, calls[0].shown, calls[1..], missing, |missing|);
    if i in missing {
      var m :| 0 <= m < |missing| && missing[m] == i;
      assert AskedAbout(was[missing[m]], calls[1..][m], now[missing[m]]);
      assert AskedOf(was[i], now[i], calls[m + 1]);
    }
  }

  function Listings(calls: seq<Call>): nat {
    if calls == [] then 0 else Listings(calls[..|calls| - 1]) + if calls[|calls| - 1].Listed? then 1 else 0
  }

  predicate OnlyPolls(calls: seq<Call>) { forall k :: 0 <= k < |calls| ==> calls[k].Listed? || calls[k].Asked? }

  lemma {:induction false} ListingsAppend(a: seq<Call>, b: seq<Call>)
    ensures Listings(a + b) == Listings(a) + Listings(b)
  {
    if b == [] {
      assert a + b == a;
    } else {
      ListingsAppend(a, b[..|b| - 1]);
      assert (a + b)[..|a + b| - 1] == a + b[..|b| - 1];
    }
  }

  lemma {:induction false} NoListings(calls: seq<Call>)
    requires forall k :: 0 <= k < |calls| ==> !calls[k].Listed?
    ensures Listings(calls) == 0
  {
    if calls != [] { NoListings(calls[..|calls| - 1]); }
  }

  lemma {:induction false} AsksArePolls(was: seq<Copier>, now: seq<Copier>, listing: Option<map<nat, Stage>>,
                                        asks: seq<Call>, missing: seq<nat>)
    requires PolledSome(was, now, listing, asks, missing, |missing|)
    ensures forall k :: 0 <= k < |asks| ==> asks[k].Asked?
  {
    forall k | 0 <= k < |asks| ensures asks[k].Asked? { assert AskedAbout(was[missing[k]], asks[k], now[missing[k]]); }
  }

  lemma {:induction false} OneListing(calls: seq<Call>)
    requires calls != [] && calls[0].Listed? && forall k :: 0 <= k < |calls[1..]| ==> calls[1..][k].Asked?
    ensures OnlyPolls(calls) && Listings(calls) == 1
  {
    var asks := calls[1..];
    assert calls == [calls[0]] + asks;
    ListingsAppend([calls[0]], asks);
    NoListings(asks);
    assert [calls[0]][..0] == [];
  }

  /** A refresh is one listing and polls. */
  lemma {:induction false} PolledIsOneListing(was: seq<Copier>, now: seq<Copier>, calls: seq<Call>)
    requires Polled(was, now, calls)
    ensures OnlyPolls(calls) && Listings(calls) == 1 && |now| == |was|
  {
    var missing :| PolledSome(was, now, calls[0].shown, calls[1..], missing, |missing|);
    AsksArePolls(was, now, calls[0].shown, calls[1..], missing);
    OneListing(calls);
  }

  /** One more request in the log that is no listing. */
  lemma {:induction false} OneMore(before: seq<Call>, log: seq<Call>, call: Call)
    requires before <= log && !call.Listed?
    ensures before <= log + [call] && (log + [call])[|before|..] == log[|before|..] + [call]
    ensures Listings((log + [call])[|before|..]) == Listings(log[|before|..])
  {
    assert (log + [call])[|before|..] == log[|before|..] + [call];
    assert (log[|before|..] + [call])[..|log| - |before|] == log[|before|..];
  }

  /** The listings of two stretches of the log add up. */
  lemma {:induction false} Stretches(before: seq<Call>, mid: seq<Call>, now: seq<Call>)
    requires before <= mid <= now
    ensures now[|before|..] == mid[|before|..] + now[|mid|..]
    ensures Listings(now[|before|..]) == Listings(mid[|before|..]) + Listings(now[|mid|..])
  {
    assert now[|before|..] == mid[|before|..] + now[|mid|..];
    ListingsAppend(mid[|before|..], now[|mid|..]);
  }

  predicate AllDone(copiers: seq<Copier>) {
    forall i :: 0 <= i < |copiers| ==> copiers[i].seen.Completed? || copiers[i].seen.Deleted?
  }

  function PendingCount(copiers: seq<Copier>): nat {
    if copiers == [] then 0
    else PendingCount(copiers[..|copiers| - 1]) + if Pending(copiers[|copiers| - 1]) then 1 else 0
  }

  lemma {:induction false} NonePending(copiers: seq<Copier>)
    ensures PendingCount(copiers) == 0 <==> forall i :: 0 <= i < |copiers| ==> !Pending(copiers[i])
  {
    if copiers != [] { NonePending(copiers[..|copiers| - 1]); }
  }

  // ----- restarts -----

  /** `queue` are the failed copiers with attempts left, in order. */
  ghost predicate ToRespawn(was: seq<Copier>, queue: seq<nat>) {
    && Ascending(queue, |was|)
    && forall i: nat :: i in queue <==> i < |was| && was[i].seen.Error? && was[i].attempts < 3
  }

  /** A copier after it was started again; the attempt counts even when the start
      failed. */
  function StartedAgain(w: Copier, info: Option<(nat, Stage)>): Copier {
    if info.Some? then Copier(info.value.0, w.heavy, w.attempts + 1, info.value.1) else w.(attempts := w.attempts + 1)
  }

  /** The first `n` of the queue were started again, by `calls`; the others are as
      they were. */
  ghost predicate Restarted(was: seq<Copier>, now: seq<Copier>, calls: seq<Call>, queue: seq<nat>, n: nat) {
    && |now| == |was| && |calls| == n <= |queue| && ToRespawn(was, queue)
    && (forall m :: 0 <= m < n ==>
          var w := was[queue[m]];
          && calls[m].RunSent? && calls[m].range == queue[m] && calls[m].heavy == w.heavy && calls[m].info.Some?
          && now[queue[m]] == StartedAgain(w, calls[m].info))
    && (forall i: nat :: i < |was| && i !in queue[..n] ==> now[i] == was[i])
  }

  predicate LastFailed(calls: seq<Call>) {
    calls != [] && calls[|calls| - 1].RunSent? && calls[|calls| - 1].info.None?
  }

  /** The last start that was tried failed: its attempt is spent, and nothing after
      it was tried. */
  ghost predicate RestartFailed(was: seq<Copier>, now: seq<Copier>, calls: seq<Call>, queue: seq<nat>) {
    && 0 < |calls| <= |queue| && ToRespawn(was, queue) && |now| == |was|
    && var n := |calls| - 1;
       var i := queue[n];
       && calls[n] == RunSent(i, was[i].heavy, None)
       && now[i] == StartedAgain(was[i], None)
       && Restarted(was, now[i := was[i]], calls[..n], queue, n)
  }

  lemma {:induction false} NotYet(queue: seq<nat>, n: nat, bound: nat)
    requires Ascending(queue, bound) && n < |queue|
    ensures queue[n] !in queue[..n] && queue[..n + 1] == queue[..n] + [queue[n]]
  {
  }

  lemma {:induction false} RestartKeepsRanges(was: seq<Copier>, now: seq<Copier>, calls: seq<Call>, queue: seq<nat>,
                                              n: nat)
    requires Restarted(was, now, calls, queue, n)
    ensures SameRanges(was, now)
  {
    forall i | 0 <= i < |was| ensures now[i].heavy == was[i].heavy {
      if i in queue[..n] { var m :| 0 <= m < n && queue[..n][m] == i; }
    }
  }

  lemma {:induction false} NextToRestart(was: seq<Copier>, now: seq<Copier>, calls: seq<Call>, queue: seq<nat>, n: nat)
    requires Restarted(was, now, calls, queue, n) && n < |queue|
    ensures queue[n] < |was| && now[queue[n]] == was[queue[n]] && Respawnable(was[queue[n]])
  {
    NotYet(queue, n, |was|);
    assert queue[n] in queue;
  }

  lemma {:induction false} RestartedNext(was: seq<Copier>, now: seq<Copier>, calls: seq<Call>, queue: seq<nat>, n: nat,
                                         info: (nat, Stage))
    requires Restarted(was, now, calls, queue, n) && n < |queue| && queue[n] < |was|
    ensures var i := queue[n];
            Restarted(was, now[i := StartedAgain(was[i], Some(info))],
                      calls + [RunSent(i, was[i].heavy, Some(info))], queue, n + 1)
  {
    NotYet(queue, n, |was|);
    var more := calls + [RunSent(queue[n], was[queue[n]].heavy, Some(info))];
    assert forall m :: 0 <= m < n ==> more[m] == calls[m] && queue[m] < queue[n];
  }

  lemma {:induction false} RestartFails(was: seq<Copier>, now: seq<Copier>, calls: seq<Call>, queue: seq<nat>, n: nat)
    requires Restarted(was, now, calls, queue, n) && n < |queue| && queue[n] < |was|
    ensures var i := queue[n];
            RestartFailed(was, now[i := StartedAgain(was[i], None)],
                          calls + [RunSent(i, was[i].heavy, None)], queue)
  {
    NextToRestart(was, now, calls, queue, n);
    var i := queue[n];
    var after := now[i := StartedAgain(was[i], None)];
    assert after[i := was[i]] == now;
    assert (calls + [RunSent(i, was[i].heavy, None)])[..n] == calls;
  }

  /** Copier `queue[n]` was started again, with one more request in the log. */
  lemma {:induction false} RestartLogged(was: seq<Copier>, now: seq<Copier>, queue: seq<nat>, n: nat,
                                         info: Option<(nat, Stage)>, before: seq<Call>, log: seq<Call>)
    requires before <= log && Restarted(was, now, log[|before|..], queue, n) && n < |queue| && queue[n] < |was|
    ensures var i := queue[n];
            var more := log + [RunSent(i, was[i].heavy, info)];
            && before <= more && Listings(more[|before|..]) == Listings(log[|before|..])
            && if info.Some? then Restarted(was, now[i := StartedAgain(was[i], info)], more[|before|..], queue, n + 1)
               else
                 && LastFailed(more)
                 && RestartFailed(was, now[i := StartedAgain(was[i], info)], more[|before|..], queue)
  {
    OneMore(before, log, RunSent(queue[n], was[queue[n]].heavy, info));
    if info.Some? {
      RestartedNext(was, now, log[|before|..], queue, n, info.value);
    } else {
      RestartFails(was, now, log[|before|..], queue, n);
    }
  }

  // ----- cancels -----

  /** `queue` are the copiers not seen to end, below `n`, in order; `calls` cancels
      the job of each. */
  ghost predicate CancelsSent(copiers: seq<Copier>, calls: seq<Call>, queue: seq<nat>, n: nat) {
    && n <= |copiers| && Ascending(queue, n) && |calls| == |queue|
    && (forall i: nat :: i in queue <==> i < n && Running(copiers[i]))
    && forall m :: 0 <= m < |queue| ==> calls[m].CancelSent? && calls[m].j == copiers[queue[m]].job
  }

  /** The cancels among these requests that were taken. */
  ghost function Accepted(calls: seq<Call>): set<nat> {
    set m: nat | m < |calls| && calls[m].CancelSent? && calls[m].accepted
  }

  lemma {:induction false} AcceptedNext(calls: seq<Call>, j: nat, accepted: bool)
    ensures |Accepted(calls + [CancelSent(j, accepted)])| == |Accepted(calls)| + if accepted then 1 else 0
  {
    var more := calls + [CancelSent(j, accepted)];
    assert Accepted(more) == if accepted then Accepted(calls) + {|calls|} else Accepted(calls);
  }

  lemma {:induction false} CancelNext(copiers: seq<Copier>, before: seq<Call>, log: seq<Call>, queue: seq<nat>, n: nat,
                                      accepted: bool)
    requires before <= log && CancelsSent(copiers, log[|before|..], queue, n) && n < |copiers| && Running(copiers[n])
    ensures var more := (log + [CancelSent(copiers[n].job, accepted)])[|before|..];
            && before <= log + [CancelSent(copiers[n].job, accepted)]
            && CancelsSent(copiers, more, queue + [n], n + 1)
            && |Accepted(more)| == |Accepted(log[|before|..])| + if accepted then 1 else 0
  {
    var calls := log[|before|..];
    var more := calls + [CancelSent(copiers[n].job, accepted)];
    AcceptedNext(calls, copiers[n].job, accepted);
    assert (log + [CancelSent(copiers[n].job, accepted)])[|before|..] == more;
  }

  ghost predicate IsCanceled(calls: seq<Call>, j: nat) {
    exists m :: 0 <= m < |calls| && calls[m].CancelSent? && calls[m].j == j
  }

  /** Each job counted as running got its cancel. */
  lemma {:induction false} EveryJobIsCanceled(copiers: seq<Copier>, calls: seq<Call>, queue: seq<nat>, j: nat)
    requires CancelsSent(copiers, calls, queue, |copiers|) && j in CountedJobs(copiers, false)
    ensures IsCanceled(calls, j)
  {
    var i :| 0 <= i < |copiers| && Running(copiers[i]) && copiers[i].job == j;
    assert i in queue;
    var m :| 0 <= m < |queue| && queue[m] == i;
    assert calls[m].j == j;
  }

  // ----- the planner -----

  class Planner {
    const maxInflight: nat
    const verify: bool
    const server: JobServer
    var copiers: seq<Copier>
    ghost var phase: Phase
    ghost var canceled: set<nat>

    ghost function View(): State
      reads this, server
    {
      State(copiers, server.jobs, phase, canceled, server.flight)
    }

    /** A state of the step system; a planner at work has the answers to all its
        starts. */
    ghost predicate Valid()
      reads this, server
    {
      Reachable(maxInflight, View()) && (Working(phase) ==> server.flight.None?)
    }

    /** The requests sent since the log was `before`. */
    ghost function Calls(before: seq<Call>): seq<Call>
      reads this, server
    {
      if before <= server.log then server.log[|before|..] else []
    }

    constructor (maxInflight: nat, verify: bool, server: JobServer)
      requires server.jobs == [] && server.flight == None
      ensures Valid() && copiers == [] && phase == Listing
      ensures this.maxInflight == maxInflight && this.verify == verify && this.server == server
    {
      this.maxInflight, this.verify, this.server := maxInflight, verify, server;
      copiers, phase, canceled := [], Listing, {};
      new;
      ReachableStart(maxInflight);
    }

    /** An answer about copier `i` is written down. */
    method See(i: nat, told: Stage)
      requires Valid() && Working(phase) && i < |copiers| && Running(copiers[i])
      requires copiers[i].job < |server.jobs| && Honest(server.jobs[copiers[i].job].stage, told)
      modifies `copiers
      ensures Valid() && copiers == old(copiers)[i := old(copiers)[i].(seen := told)]
    {
      ReachableStep(maxInflight, View(), Poll(i, told));
      copiers := copiers[i := copiers[i].(seen := told)];
    }

    /** Writes a listing down; `missing` are the running copiers it does not show. */
    method SeeListing(shown: map<nat, Stage>) returns (missing: seq<nat>)
      requires Valid() && Working(phase) && HonestListing(server.jobs, shown)
      modifies `copiers
      ensures Valid() && |copiers| == |old(copiers)| && MissingFrom(old(copiers), shown, missing)
      ensures forall i :: 0 <= i < |copiers| ==> copiers[i] == SeenIn(old(copiers)[i], shown)
    {
      ghost var was := copiers;
      missing := [];
      var i := 0;
      while i < |copiers|
        invariant i <= |copiers| == |was| && Valid() && Ascending(missing, i)
        invariant forall k :: 0 <= k < |copiers| ==> copiers[k] == if k < i then SeenIn(was[k], shown) else was[k]
        invariant forall k: nat :: k in missing <==> k < i && Running(was[k]) && was[k].job !in shown
      {
        if Running(copiers[i]) {
          if copiers[i].job in shown { See(i, shown[copiers[i].job]); } else { missing := missing + [i]; }
        }
        i := i + 1;
      }
    }

    /** Asks for one copier's stage; an error or no answer changes nothing. */
    method PollOne(i: nat) returns (told: Option<Stage>)
      requires Valid() && Working(phase) && i < |copiers| && Running(copiers[i])
      modifies `copiers, server
      ensures Valid() && server.log == old(server.log) + [Asked(old(copiers)[i].job, told)]
      ensures copiers == if told.Some? then old(copiers)[i := old(copiers)[i].(seen := told.value)] else old(copiers)
    {
      ghost var view := View();
      ReachableInv(maxInflight, view);
      assert CopierIs(view, i);
      told := server.JobStatus(copiers[i].job);
      Moved(maxInflight, view, server.jobs, server.flight);
      if told.Some? { See(i, told.value); }
    }

    /** Polls every copier that was not seen to end: one listing, then a poll of its
        own for each one the listing does not show, and every answer is written
        down. */
    method Refresh()
      requires Valid() && Working(phase)
      modifies `copiers, server
      ensures Valid() && old(server.log) <= server.log && Polled(old(copiers), copiers, Calls(old(server.log)))
      ensures |copiers| == |old(copiers)|
      ensures forall i :: 0 <= i < |copiers| ==> Heard(old(copiers)[i], copiers[i], Calls(old(server.log)))
    {
      ghost var was, before, view := copiers, server.log, View();
      var listing := server.ListJobs();
      Moved(maxInflight, view, server.jobs, server.flight);
      ghost var asks: seq<Call> := [];
      var missing := SeeListing(if listing.Some? then listing.value else map[]);
      PolledNone(was, copiers, listing, missing);
      var n := 0;
      while n < |missing|
        invariant n <= |missing| && Valid() && server.log == before + [Listed(listing)] + asks
        invariant PolledSome(was, copiers, listing, asks, missing, n)
      {
        NextToAsk(was, copiers, listing, asks, missing, n);
        ghost var now := copiers;
        var told := PollOne(missing[n]);
        PolledNext(was, now, listing, asks, missing, n, told, copiers);
        asks := asks + [Asked(was[missing[n]].job, told)];
        n := n + 1;
      }
      assert Calls(before) == [Listed(listing)] + asks && Calls(before)[1..] == asks;
      forall i | 0 <= i < |copiers| ensures Heard(was[i], copiers[i], Calls(before)) {
        PolledHeard(was, copiers, Calls(before), i);
      }
    }

    /** Polls until a copier of this weight may start; gives up, still blocked, after
        `polls` polls. `looks` is how often it polled. */
    method WaitForSlot(heavy: bool, polls: nat) returns (free: bool, ghost looks: nat)
      requires Valid() && phase.Listing?
      modifies `copiers, server
      ensures Valid() && SameRanges(old(copiers), copiers) && old(server.log) <= server.log
      ensures OnlyPolls(Calls(old(server.log))) && Listings(Calls(old(server.log))) == looks <= polls
      ensures free == Room(maxInflight, copiers, heavy) == !Blocked(maxInflight, copiers, heavy)
      ensures !free ==> looks == polls
      ensures Room(maxInflight, old(copiers), heavy) ==> looks == 0 && copiers == old(copiers)
    {
      ghost var before := server.log;
      looks := 0;
      var n := 0;
      assert Calls(before) == [];
      while Blocked(maxInflight, copiers, heavy) && n < polls
        invariant Valid() && SameRanges(old(copiers), copiers) && before <= server.log && n == looks <= polls
        invariant OnlyPolls(Calls(before)) && Listings(Calls(before)) == looks
        invariant looks == 0 ==> copiers == old(copiers)
        invariant looks > 0 ==> Blocked(maxInflight, old(copiers), heavy)
      {
        ghost var was, mid := copiers, server.log;
        Refresh();
        PolledIsOneListing(was, copiers, Calls(mid));
        PolledKeepsRanges(was, copiers, Calls(mid));
        Stretches(before, mid, server.log);
        n, looks := n + 1, looks + 1;
      }
      free := !Blocked(maxInflight, copiers, heavy);
      RoomIff(maxInflight, old(copiers), heavy);
      RoomIff(maxInflight, copiers, heavy);
    }

    /** Sends the start of the next range's copier. The copier follows the job that was
        started; a start that is not answered stops the planner. */
    method StartNext(heavy: bool) returns (info: Option<(nat, Stage)>)
      requires Valid() && phase.Listing? && !Blocked(maxInflight, copiers, heavy)
      modifies this, server
      ensures Valid() && server.log == old(server.log) + [RunSent(|old(copiers)|, heavy, info)]
      ensures info.Some? ==>
                && phase.Listing? && copiers == old(copiers) + [Copier(info.value.0, heavy, 1, info.value.1)]
                && info.value.0 + 1 == |server.jobs|
      ensures info.None? ==>
                && phase.Stopping? && copiers == old(copiers)
                && server.flight.Some? && server.flight.value.range == |copiers|
    {
      ghost var view := View();
      info := server.RunJob(|copiers|, heavy);
      if info.None? {
        Unanswered(maxInflight, view, Launch(heavy), server.jobs, server.flight);
        phase := Stopping;
        return;
      }
      Answered(maxInflight, view, Launch(heavy), server.jobs, info.value.1);
      copiers := copiers + [Copier(info.value.0, heavy, 1, info.value.1)];
    }

    /** Starts the copier of the range that was just closed, once there is room for
        it. It is not started only when its start failed, which stops the planner,
        or when it still had to wait after `polls` polls. */
    method Cut(heavy: bool, polls: nat) returns (started: bool, ghost looks: nat, ghost info: Option<(nat, Stage)>)
      requires Valid() && phase.Listing?
      modifies this, server
      ensures Valid() && old(server.log) <= server.log && Listings(Calls(old(server.log))) == looks <= polls
      ensures started ==>
                && phase.Listing? && |copiers| == |old(copiers)| + 1 && info.Some?
                && SameRanges(old(copiers), copiers[..|old(copiers)|])
                && copiers[|old(copiers)|] == Copier(info.value.0, heavy, 1, info.value.1)
                && info.value.0 + 1 == |server.jobs|
      ensures !started ==>
                && SameRanges(old(copiers), copiers) && info == None
                && (phase.Listing? ==> !Room(maxInflight, copiers, heavy) && looks == polls)
                && (phase.Stopping? ==>
                      && Room(maxInflight, copiers, heavy)
                      && server.flight.Some? && server.flight.value.range == |copiers|)
                && (phase.Listing? || phase.Stopping?)
      ensures var calls := Calls(old(server.log));
              if started || phase.Stopping?
              then && calls != [] && calls[|calls| - 1] == RunSent(|old(copiers)|, heavy, info)
                   && OnlyPolls(calls[..|calls| - 1])
              else OnlyPolls(calls)
    {
      ghost var before := server.log;
      info := None;
      started, looks := WaitForSlot(heavy, polls);
      if !started { return; }
      ghost var log := server.log;
      var answer := StartNext(heavy);
      OneMore(before, log, RunSent(|old(copiers)|, heavy, answer));
      started, info := answer.Some?, answer;
    }

    /** Starts copier `i` again. The attempt counts even when the start fails. */
    method Respawn(i: nat) returns (info: Option<(nat, Stage)>)
      requires Valid() && phase.Monitoring? && i < |copiers| && Respawnable(copiers[i])
      modifies this, server
      ensures Valid() && phase == if info.Some? then Monitoring else Stopping
      ensures server.log == old(server.log) + [RunSent(i, old(copiers)[i].heavy, info)]
      ensures copiers == old(copiers)[i := StartedAgain(old(copiers)[i], info)]
    {
      ghost var view := View();
      ReachableInv(maxInflight, view);
      assert CopierIs(view, i);
      var attempts := copiers[i].attempts + 1;
      info := server.RunJob(i, copiers[i].heavy);
      if info.None? {
        Unanswered(maxInflight, view, Relaunch(i), server.jobs, server.flight);
        copiers, phase := copiers[i := copiers[i].(attempts := attempts)], Stopping;
      } else {
        Answered(maxInflight, view, Relaunch(i), server.jobs, info.value.1);
        copiers := copiers[i := Copier(info.value.0, copiers[i].heavy, attempts, info.value.1)];
      }
    }

    /** The failed copiers with attempts left. */
    method FindFailed() returns (queue: seq<nat>)
      ensures ToRespawn(copiers, queue)
    {
      queue := [];
      for i := 0 to |copiers|
        invariant Ascending(queue, i) && forall k: nat :: k in queue <==> k < i && Respawnable(copiers[k])
      {
        if Respawnable(copiers[i]) { queue := queue + [i]; }
      }
    }

    /** Starts copier `queue[n]` again, the first `n` of the queue having been since
        the log was `before`. */
    method RespawnNext(queue: seq<nat>, n: nat, ghost was: seq<Copier>, ghost before: seq<Call>) returns (started: bool)
      requires Valid() && phase.Monitoring? && before <= server.log
      requires n < |queue| && Restarted(was, copiers, Calls(before), queue, n)
      modifies this, server
      ensures Valid() && phase == if started then Monitoring else Stopping
      ensures SameRanges(was, copiers)
      ensures before <= server.log && Listings(Calls(before)) == Listings(old(Calls(before)))
      ensures if started then Restarted(was, copiers, Calls(before), queue, n + 1)
              else LastFailed(server.log) && RestartFailed(was, copiers, Calls(before), queue)
    {
      ghost var now, log := copiers, server.log;
      NextToRestart(was, now, Calls(before), queue, n);
      RestartKeepsRanges(was, now, Calls(before), queue, n);
      var info := Respawn(queue[n]);
      RestartLogged(was, now, queue, n, info, before, log);
      started := info.Some?;
    }

    /** Starts every failed copier with attempts left again, once, in order. It stops
        early only at a start that fails; that attempt is spent, and the planner
        stops. */
    method RespawnFailed() returns (started: bool, ghost queue: seq<nat>)
      requires Valid() && phase.Monitoring?
      modifies this, server
      ensures Valid() && SameRanges(old(copiers), copiers) && old(server.log) <= server.log
      ensures Listings(Calls(old(server.log))) == 0 && phase == if started then Monitoring else Stopping
      ensures var calls := Calls(old(server.log));
              if started then Restarted(old(copiers), copiers, calls, queue, |queue|)
              else LastFailed(server.log) && RestartFailed(old(copiers), copiers, calls, queue)
    {
      ghost var was, before := copiers, server.log;
      var failed := FindFailed();
      queue, started := failed, true;
      var n := 0;
      assert Calls(before) == [];
      while n < |failed|
        invariant n <= |failed| && Valid() && phase.Monitoring? && before <= server.log
        invariant Listings(Calls(before)) == 0 && Restarted(was, copiers, Calls(before), failed, n)
      {
        started := RespawnNext(failed, n, was, before);
        if !started { return; }
        n := n + 1;
      }
      RestartKeepsRanges(was, copiers, Calls(before), failed, n);
    }

    /** A stop signal reached the planner. */
    method Signal()
      requires Valid() && Working(phase)
      modifies `phase
      ensures Valid() && phase == Stopping
    {
      ReachableStep(maxInflight, View(), Stop);
      phase := Stopping;
    }

    method CancelOne(i: nat) returns (accepted: bool)
      requires Valid() && i < |copiers|
      modifies server
      ensures Valid() && server.log == old(server.log) + [CancelSent(copiers[i].job, accepted)]
    {
      ghost var view := View();
      ReachableInv(maxInflight, view);
      assert CopierIs(view, i);
      accepted := server.CancelJob(copiers[i].job);
      Moved(maxInflight, view, server.jobs, server.flight);
    }

    /** Sends a cancel to every copier not seen to end, in order. */
    method SendCancels() returns (accepted: nat, ghost queue: seq<nat>)
      requires Valid()
      modifies server
      ensures Valid() && old(server.log) <= server.log
      ensures CancelsSent(copiers, Calls(old(server.log)), queue, |copiers|)
      ensures accepted == |Accepted(Calls(old(server.log)))|
    {
      ghost var before := server.log;
      accepted, queue := 0, [];
      assert Calls(before) == [] && Accepted([]) == {};
      for i := 0 to |copiers|
        invariant Valid() && before <= server.log
        invariant CancelsSent(copiers, Calls(before), queue, i) && accepted == |Accepted(Calls(before))|
      {
        if Running(copiers[i]) {
          ghost var log := server.log;
          var taken := CancelOne(i);
          CancelNext(copiers, before, log, queue, i, taken);
          if taken { accepted := accepted + 1; }
          queue := queue + [i];
        }
      }
    }

    /** Sends a cancel to every copier not seen to end, and to no other: `queue` are
        those, in order. No job that still runs is left out but one whose start was in
        flight. `accepted` of the cancels were taken. */
    method CancelActive() returns (accepted: nat, ghost queue: seq<nat>)
      requires Valid() && phase.Stopping?
      modifies `phase, `canceled, server
      ensures Valid() && phase == Ended && old(server.log) <= server.log
      ensures CancelsSent(copiers, Calls(old(server.log)), queue, |copiers|)
      ensures accepted == |Accepted(Calls(old(server.log)))|
      ensures LiveJobs(View()) - canceled == Flying(View()) && (server.flight.None? ==> Flying(View()) == {})
      ensures forall j :: j in LiveJobs(View()) - Flying(View()) ==> IsCanceled(Calls(old(server.log)), j)
    {
      ghost var before := server.log;
      accepted, queue := SendCancels();
      ghost var view := View();
      ReachableStep(maxInflight, view, CancelAll);
      phase, canceled := Ended, CountedJobs(copiers, false);
      assert View() == Apply(maxInflight, view, CancelAll);
      StopMissesOnlyTheFlight(maxInflight, View());
      forall j | j in LiveJobs(View()) - Flying(View()) ensures IsCanceled(Calls(before), j) {
        EveryJobIsCanceled(copiers, Calls(before), queue, j);
      }
    }

    /** The planner is through, with exit `r`: every copier has ended, the last job of
        each range is really at the stage that was seen, no job runs, a failed range
        had its three attempts, and the exit is Ok exactly when all ranges are done
        and the check, if there is one, found the destination whole. */
    ghost predicate Decided(check: Check, r: Result<(), Failure>)
      reads this, server
    {
      && phase.Ended? && LiveJobs(View()) == {} && r == Verdict(copiers, verify, check)
      && (forall i :: 0 <= i < |copiers| ==> HasEnded(View(), i))
      && (r.Ok? <==> (verify ==> check == Report(true)) && AllDone(copiers))
    }

    /** What the planner does when no copier is pending. */
    method Finish(check: Check) returns (r: Result<(), Failure>)
      requires Valid() && phase.Monitoring? && PendingCount(copiers) == 0
      modifies `phase
      ensures Valid() && Decided(check, r)
    {
      NonePending(copiers);
      ghost var view := View();
      VerdictIsExact(maxInflight, view, verify, check);
      ReachableStep(maxInflight, view, EndMonitoring);
      phase := Ended;
      assert LiveJobs(View()) == LiveJobs(view);
      forall i | 0 <= i < |copiers| ensures HasEnded(View(), i) {
        assert HasEnded(view, i) && JobsOf(View(), i) == JobsOf(view, i);
      }
      r := Verdict(copiers, verify, check);
    }

    /** One round of the monitoring: a refresh, which sends `polls` and leaves the
        copiers `polled`, then the restarts of what had failed by then. */
    method Round() returns (started: bool, ghost polls: seq<Call>, ghost polled: seq<Copier>, ghost restarts: seq<Call>,
                            ghost queue: seq<nat>)
      requires Valid() && phase.Monitoring?
      modifies this, server
      ensures Valid() && SameRanges(old(copiers), copiers) && phase == if started then Monitoring else Stopping
      ensures old(server.log) <= server.log && Calls(old(server.log)) == polls + restarts
      ensures Listings(Calls(old(server.log))) == 1 && Polled(old(copiers), polled, polls)
      ensures if started then Restarted(polled, copiers, restarts, queue, |queue|)
              else LastFailed(server.log) && RestartFailed(polled, copiers, restarts, queue)
    {
      ghost var was, before := copiers, server.log;
      Refresh();
      PolledIsOneListing(was, copiers, Calls(before));
      PolledKeepsRanges(was, copiers, Calls(before));
      polled, polls := copiers, Calls(before);
      ghost var mid := server.log;
      started, queue := RespawnFailed();
      restarts := Calls(mid);
      Stretches(before, mid, server.log);
    }

    /** One turn of the monitoring loop: a round, and whether a copier is pending after
        it. */
    method Turn() returns (over: bool, started: bool)
      requires Valid() && phase.Monitoring?
      modifies this, server
      ensures Valid() && SameRanges(old(copiers), copiers)
      ensures old(server.log) <= server.log && Listings(Calls(old(server.log))) == 1
      ensures over == (started && PendingCount(copiers) == 0)
      ensures if started then phase.Monitoring? else phase.Stopping? && LastFailed(server.log)
    {
      ghost var polls, polled, restarts, queue;
      started, polls, polled, restarts, queue := Round();
      over := started && PendingCount(copiers) == 0;
    }

    /** Polls and restarts until every copier has ended: completed, canceled, deleted,
        or failed for the third time. It is not over only when a restart failed, which
        stops the planner, or when copiers were still pending after `polls` polls. */
    method Watch(polls: nat) returns (over: bool, startFailed: bool, ghost looks: nat)
      requires Valid() && phase.Listing?
      modifies this, server
      ensures Valid() && SameRanges(old(copiers), copiers)
      ensures old(server.log) <= server.log && Listings(Calls(old(server.log))) == looks <= polls
      ensures over ==> !startFailed && looks >= 1 && phase.Monitoring? && PendingCount(copiers) == 0
      ensures !over && !startFailed ==>
              phase.Monitoring? && looks == polls && (polls > 0 ==> PendingCount(copiers) > 0)
      ensures startFailed ==> !over && phase.Stopping? && LastFailed(server.log)
    {
      ghost var before := server.log;
      ReachableStep(maxInflight, View(), EndListing);
      phase := Monitoring;
      over, startFailed, looks := false, false, 0;
      assert Calls(before) == [];
      var n := 0;
      while n < polls && !over && !startFailed
        invariant n == looks <= polls && Valid() && SameRanges(old(copiers), copiers)
        invariant before <= server.log && Listings(Calls(before)) == looks
        invariant over ==> !startFailed && looks >= 1 && PendingCount(copiers) == 0
        invariant startFailed ==> !over && phase.Stopping? && LastFailed(server.log)
        invariant !startFailed ==> phase.Monitoring?
        invariant !over && !startFailed && looks > 0 ==> PendingCount(copiers) > 0
      {
        ghost var mid := server.log;
        var started: bool;
        over, started := Turn();
        Stretches(before, mid, server.log);
        n, looks, startFailed := n + 1, looks + 1, !started;
      }
    }

    /** The monitoring and the exit: Ok exactly when each range's last job really
        completed, or was deleted, and the check, if there is one, found the
        destination whole. There is no verdict only when a restart failed, or when
        copiers were still pending after `polls` polls. */
    method Monitor(polls: nat, check: Check)
      returns (r: Option<Result<(), Failure>>, startFailed: bool, ghost looks: nat)
      requires Valid() && phase.Listing?
      modifies this, server
      ensures Valid() && SameRanges(old(copiers), copiers)
      ensures old(server.log) <= server.log && Listings(Calls(old(server.log))) == looks <= polls
      ensures r.Some? ==> !startFailed && looks >= 1 && Decided(check, r.value)
      ensures r.None? && !startFailed ==>
              phase.Monitoring? && looks == polls && (polls > 0 ==> PendingCount(copiers) > 0)
      ensures startFailed ==> r.None? && phase.Stopping? && LastFailed(server.log)
    {
      r := None;
      var over: bool;
      over, startFailed, looks := Watch(polls);
      if over {
        var verdict := Finish(check);
        r := Some(verdict);
      }
    }
  }
}
