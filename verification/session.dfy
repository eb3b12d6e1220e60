/** Sequences of inputs and ticks: what the engine promises across many
    ticks of one run and across runs separated by resets. */
module Session {
  import opened Game

  /** One thing that can happen to the engine: a tick of the interval timer
      (with the wobble and random draw it consumes), a click, or a key. */
  datatype Event = Frame(bob: real, rand: real) | Click | Key(code: int)

  predicate Admissible(e: Event)
  {
    e.Frame? ==> -1.0 <= e.bob <= 1.0 && 0.0 <= e.rand < 1.0
  }

  predicate AllAdmissible(evs: seq<Event>)
  {
    forall i :: 0 <= i < |evs| ==> Admissible(evs[i])
  }

  /** The event reaches the state machine: a click, space, W or arrow-up. */
  predicate IsPrimary(e: Event)
  {
    e.Click? || (e.Key? && (e.code == KeySpace || e.code == KeyW || e.code == KeyUp))
  }

  /** A primary action while in game over, which resets the game. */
  predicate IsReset(w: World, e: Event)
  {
    IsPrimary(e) && w.state == GameOver
  }

  function Apply(w: World, d: Dims, e: Event): TickResult
    requires Admissible(e)
  {
    match e
    case Frame(bob, rand) => Tick(w, d, bob, rand)
    case Click => TickResult(OnPrimaryAction(w), NoReport)
    case Key(code) => TickResult(KeyDown(w, code), NoReport)
  }

  /** Final world and counts of score reports, resets and front-pair
      departures along a run of events. */
  datatype Trace = Trace(world: World, reports: nat, resets: nat, departures: nat)

  ghost function Run(w: World, d: Dims, evs: seq<Event>): Trace
    requires AllAdmissible(evs)
    decreases |evs|
  {
    if evs == [] then Trace(w, 0, 0, 0)
    else
      var e := evs[0];
      var t := Apply(w, d, e);
      var rest := Run(t.world, d, evs[1..]);
      Trace(rest.world,
            rest.reports + (if t.report != NoReport then 1 else 0),
            rest.resets + (if IsReset(w, e) then 1 else 0),
            rest.departures + (if e.Frame? && TickDeparts(w, d, e.bob, e.rand) then 1 else 0))
  }

  /** One point is still available from the current front pair. */
  function Credit(w: World): nat
  {
    if w.moved then 1 else 0
  }

  /** Every reachable world is valid. */
  lemma {:induction false} RunPreservesValid(w: World, d: Dims, evs: seq<Event>)
    requires AllAdmissible(evs) && Valid(w, d)
    ensures Valid(Run(w, d, evs).world, d)
    decreases |evs|
  {
    if evs != [] {
      var e := evs[0];
      match e {
        case Frame(bob, rand) => TickPreservesValid(w, d, bob, rand);
        case Click => ActionPreservesValid(w, d);
        case Key(code) => ActionPreservesValid(w, d);
      }
      RunPreservesValid(Apply(w, d, e).world, d, evs[1..]);
    }
  }

  /** The score is reported at most once per game over: at most once before
      the first reset, and once more only after each reset. */
  lemma {:induction false} ReportsBoundedByResets(w: World, d: Dims, evs: seq<Event>)
    requires AllAdmissible(evs) && Valid(w, d)
    ensures var t := Run(w, d, evs);
            t.reports <= t.resets + (if w.state == GameOver then 0 else 1)
    decreases |evs|
  {
    if evs != [] {
      var e := evs[0];
      match e {
        case Frame(bob, rand) => TickPreservesValid(w, d, bob, rand);
        case Click => ActionPreservesValid(w, d);
        case Key(code) => ActionPreservesValid(w, d);
      }
      ReportsBoundedByResets(Apply(w, d, e).world, d, evs[1..]);
    }
  }

  /** Within one run (no reset) the score is reported at most once, and not
      at all once it has been reported. */
  lemma ReportAtMostOncePerRun(w: World, d: Dims, evs: seq<Event>)
    requires AllAdmissible(evs) && Valid(w, d)
    requires Run(w, d, evs).resets == 0
    ensures Run(w, d, evs).reports <= 1
    ensures w.gameOverHandled ==> Run(w, d, evs).reports == 0
  {
    ReportsBoundedByResets(w, d, evs);
  }

  /** Within one run the score never decreases. */
  lemma {:induction false} ScoreMonotoneWithinRun(w: World, d: Dims, evs: seq<Event>)
    requires AllAdmissible(evs)
    requires Run(w, d, evs).resets == 0
    ensures Run(w, d, evs).world.score >= w.score
    decreases |evs|
  {
    if evs != [] {
      ScoreMonotoneWithinRun(Apply(w, d, evs[0]).world, d, evs[1..]);
    }
  }

  /** Within one run, each front pair that leaves the screen is worth at
      most one point: the points gained never exceed the credit held at the
      start plus the number of departures. */
  lemma {:induction false} PointsBoundedByDepartures(w: World, d: Dims, evs: seq<Event>)
    requires AllAdmissible(evs)
    requires Run(w, d, evs).resets == 0
    ensures var t := Run(w, d, evs);
            t.world.score + Credit(t.world) <= w.score + Credit(w) + t.departures
    decreases |evs|
  {
    if evs != [] {
      PointsBoundedByDepartures(Apply(w, d, evs[0]).world, d, evs[1..]);
    }
  }

  /** resetGame leaves pipe.moved alone, so a run that ended after its front
      pair was credited but before that pair scrolled away starts the next
      run without credit: its first pair earns nothing. */
  lemma StaleCreditAfterReset(w: World, d: Dims, evs: seq<Event>)
    requires AllAdmissible(evs)
    requires w.state == GameOver && !w.moved
    requires Run(OnPrimaryAction(w), d, evs).resets == 0
    requires Run(OnPrimaryAction(w), d, evs).departures == 0
    ensures Run(OnPrimaryAction(w), d, evs).world.score == 0
  {
    PointsBoundedByDepartures(OnPrimaryAction(w), d, evs);
  }

  /** A click on the get-ready screen starts a run. */
  lemma ClickStartsRun(d: Dims)
    ensures Run(Initial, d, [Click]).world == Initial.(state := Play)
  {
  }

  /** A tick in play that lands the bird ends the run and reports its score
      in that same tick. */
  lemma LandingReportsOnce(w: World, d: Dims, bob: real, rand: real)
    requires -1.0 <= bob <= 1.0 && 0.0 <= rand < 1.0
    requires Valid(w, d) && w.state == Play && Lands(w, d)
    ensures Tick(w, d, bob, rand).world.state == GameOver
    ensures Tick(w, d, bob, rand).report == ReportScore(w.score)
  {
  }
}
