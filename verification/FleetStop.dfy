/** How a whole copy stops: the planner with its cancels, and the copiers, each of
    which watches the planner's job. */
module FleetStop {
  import opened Sequences
  import opened Fleet
  import opened FleetSafety

  /** `planner`: the actual stage of the planner's own job. `linked`: the copiers got a
      link to it, which they do when the planner is a job of their namespace. `quit`:
      the jobs whose copier was told that it has ended, and then sent the cancel of its
      own job. */
  datatype World = World(fleet: State, planner: Stage, linked: bool, quit: set<nat>)

  datatype Move =
    | OfFleet(step: Step)
    | PlannerEnds(to: Stage)   // it returned, was killed, ran out of time or memory
    | Ask(j: nat, told: Stage) // the copier of job j gets an answer about the planner

  /** What the job server does by itself, whether there is a planner or not. */
  predicate OfServer(step: Step) { step.Server? || step.Create? }

  predicate CanMove(maxInflight: nat, w: World, m: Move) {
    match m
    case OfFleet(step) => Enabled(maxInflight, w.fleet, step) && (OfServer(step) || !Terminal(w.planner))
    case PlannerEnds(to) => !Terminal(w.planner) && Terminal(to)
    case Ask(j, told) =>
      && w.linked && j < |w.fleet.jobs| && !Terminal(w.fleet.jobs[j].stage) && j !in w.quit
      && Honest(w.planner, told)
  }

  function Next(maxInflight: nat, w: World, m: Move): World
    requires CanMove(maxInflight, w, m)
  {
    match m
    case OfFleet(step) => w.(fleet := Apply(maxInflight, w.fleet, step))
    case PlannerEnds(to) => w.(planner := to)
    case Ask(j, told) => if Terminal(told) then w.(quit := w.quit + {j}) else w
  }

  ghost predicate Goes(maxInflight: nat, w: World, moves: seq<Move>)
    decreases |moves|
  {
    moves == [] ||
    (CanMove(maxInflight, w, moves[0]) && Goes(maxInflight, Next(maxInflight, w, moves[0]), moves[1..]))
  }

  ghost function Gone(maxInflight: nat, w: World, moves: seq<Move>): World
    requires Goes(maxInflight, w, moves)
    decreases |moves|
  {
    if moves == [] then w else Gone(maxInflight, Next(maxInflight, w, moves[0]), moves[1..])
  }

  /** The planner's job runs, and nothing is started yet. */
  ghost predicate Begins(w: World) { w.fleet == START && !Terminal(w.planner) && w.quit == {} }

  // ----- what every move keeps -----

  /** Copiers quit only over a planner that has ended. */
  ghost predicate Just(maxInflight: nat, w: World) {
    Reachable(maxInflight, w.fleet) && (w.quit != {} ==> Terminal(w.planner))
  }

  lemma {:induction false} MoveKeeps(maxInflight: nat, w: World, m: Move)
    requires Just(maxInflight, w) && CanMove(maxInflight, w, m)
    ensures Just(maxInflight, Next(maxInflight, w, m))
    ensures Next(maxInflight, w, m).linked == w.linked
  {
    if m.OfFleet? { ReachableStep(maxInflight, w.fleet, m.step); }
  }

  lemma {:induction false} MovesKeep(maxInflight: nat, w: World, moves: seq<Move>)
    requires Just(maxInflight, w) && Goes(maxInflight, w, moves)
    ensures Just(maxInflight, Gone(maxInflight, w, moves))
    ensures Gone(maxInflight, w, moves).linked == w.linked
    decreases |moves|
  {
    if moves != [] {
      MoveKeeps(maxInflight, w, moves[0]);
      MovesKeep(maxInflight, Next(maxInflight, w, moves[0]), moves[1..]);
    }
  }

  lemma {:induction false} BeginsJust(maxInflight: nat, w: World)
    requires Begins(w)
    ensures Just(maxInflight, w)
  {
    ReachableStart(maxInflight);
  }

  /** No copier stops itself while its planner's job runs; one that did stopped for a
      planner that really ended, and stays ended. */
  lemma {:induction false} NobodyQuitsEarly(maxInflight: nat, w: World, moves: seq<Move>)
    requires Begins(w) && Goes(maxInflight, w, moves) && !Terminal(Gone(maxInflight, w, moves).planner)
    ensures Gone(maxInflight, w, moves).quit == {}
  {
    BeginsJust(maxInflight, w);
    MovesKeep(maxInflight, w, moves);
  }

  // ----- who is left -----

  /** The jobs that run on without having sent the cancel of their own. */
  ghost function Watching(w: World): set<nat> { LiveJobs(w.fleet) - w.quit }

  /** The jobs that run on and nobody sent a cancel, neither the planner nor their own
      copier. */
  ghost function Uncalled(w: World): set<nat> { LiveJobs(w.fleet) - w.fleet.canceled - w.quit }

  /** When the planner stopped in order, by a verdict, a failed start or a signal, the
      jobs that run on uncalled are at most the one whose start was in flight. When
      it just died, they may be all; in either case each of them, if it has a link,
      can still be told, and quits when it is. */
  lemma {:induction false} OnlyTheFlightIsMissed(maxInflight: nat, w: World, moves: seq<Move>)
    requires Begins(w) && Goes(maxInflight, w, moves)
    ensures var v := Gone(maxInflight, w, moves);
            && (v.fleet.phase.Ended? ==> Uncalled(v) == Flying(v.fleet) - v.quit && |Uncalled(v)| <= 1)
            && (w.linked ==> forall j :: j in Uncalled(v) ==> CanMove(maxInflight, v, Ask(j, v.planner)))
  {
    BeginsJust(maxInflight, w);
    MovesKeep(maxInflight, w, moves);
    var v := Gone(maxInflight, w, moves);
    if v.fleet.phase.Ended? {
      StopMissesOnlyTheFlight(maxInflight, v.fleet);
      assert Uncalled(v) == (LiveJobs(v.fleet) - v.fleet.canceled) - v.quit;
      SubsetCard(Uncalled(v), Flying(v.fleet));
    }
  }

  /** An answer that says the planner has ended. */
  predicate Tells(m: Move) { m.Ask? && Terminal(m.told) }

  function Telling(moves: seq<Move>): nat {
    if moves == [] then 0 else (if Tells(moves[0]) then 1 else 0) + Telling(moves[1..])
  }

  /** The server may still make one more job. */
  function OneMore(w: World): nat { One(w.fleet.flight.Some? && w.fleet.flight.value.job.None?) }

  lemma {:induction false} ServerAddsNone(maxInflight: nat, w: World, j: nat, to: Stage)
    requires Enabled(maxInflight, w.fleet, Server(j, to))
    ensures var v := w.(fleet := Apply(maxInflight, w.fleet, Server(j, to)));
            |Watching(v)| <= |Watching(w)| && OneMore(v) == OneMore(w)
  {
    SubsetCard(Watching(w.(fleet := Apply(maxInflight, w.fleet, Server(j, to)))), Watching(w));
  }

  lemma {:induction false} CreateAddsOne(maxInflight: nat, w: World, actual: Stage)
    requires Enabled(maxInflight, w.fleet, Create(actual))
    ensures var v := w.(fleet := Apply(maxInflight, w.fleet, Create(actual)));
            |Watching(v)| <= |Watching(w)| + 1 && OneMore(v) == 0 && OneMore(w) == 1
  {
    var v := w.(fleet := Apply(maxInflight, w.fleet, Create(actual)));
    assert Watching(v) <= Watching(w) + {|w.fleet.jobs|};
    SubsetCard(Watching(v), Watching(w) + {|w.fleet.jobs|});
  }

  lemma {:induction false} MoveLowers(maxInflight: nat, w: World, m: Move)
    requires Terminal(w.planner) && CanMove(maxInflight, w, m)
    ensures var v := Next(maxInflight, w, m);
            |Watching(v)| + OneMore(v) + One(Tells(m)) <= |Watching(w)| + OneMore(w)
  {
    var v := Next(maxInflight, w, m);
    match m
    case OfFleet(step) =>
      if step.Server? {
        ServerAddsNone(maxInflight, w, step.j, step.to);
      } else {
        CreateAddsOne(maxInflight, w, step.actual);
      }
    case PlannerEnds(to) =>
    case Ask(j, told) => if Terminal(told) { assert Watching(v) == Watching(w) - {j} && j in Watching(w); }
  }

  /** Once the planner has ended, for whatever reason, the copiers are told so at most
      as often as there are jobs running then, and once more if a start is in
      flight. */
  lemma {:induction false} TellingIsBounded(maxInflight: nat, w: World, moves: seq<Move>)
    requires Terminal(w.planner) && Goes(maxInflight, w, moves)
    ensures Telling(moves) <= |Watching(w)| + OneMore(w)
    decreases |moves|
  {
    if moves != [] {
      MoveLowers(maxInflight, w, moves[0]);
      TellingIsBounded(maxInflight, Next(maxInflight, w, moves[0]), moves[1..]);
    }
  }

  /** A copier never outlives its planner: in whatever way the planner ended, when no
      copier is left that could still be told so, each job that runs has sent the
      cancel of its own; and as long as one has not, its copier can be told. */
  lemma {:induction false} NobodyOutlivesThePlanner(maxInflight: nat, w: World)
    requires Terminal(w.planner) && w.linked
    ensures (forall m :: CanMove(maxInflight, w, m) ==> !Tells(m)) <==> LiveJobs(w.fleet) <= w.quit
  {
    forall j | j in LiveJobs(w.fleet) && j !in w.quit
      ensures CanMove(maxInflight, w, Ask(j, w.planner)) && Tells(Ask(j, w.planner))
    {
    }
  }

  // ----- the second way is needed -----

  const RUNS := Live("RUNNING")

  /** A planner that was stopped by a signal between a start and its answer leaves a job
      running that it sent no cancel, and that only its own watch can end. */
  lemma {:induction false} AFlightIsMissed()
    ensures exists s :: Reachable(1, s) && s.phase.Ended? && LiveJobs(s) == {0} && s.canceled == {}
  {
    ReachableStart(1);
    ReachableStep(1, START, Launch(false));
    var s1 := Apply(1, START, Launch(false));
    ReachableStep(1, s1, Stop);
    var s2 := Apply(1, s1, Stop);
    ReachableStep(1, s2, CancelAll);
    var s3 := Apply(1, s2, CancelAll);
    ReachableStep(1, s3, Create(RUNS));
    var s4 := Apply(1, s3, Create(RUNS));
    assert LiveJobs(s4) == {0} && s4.canceled == {};
  }
}
