/** The pipe stream: pairs are appended at the right edge of the screen,
    scroll left together, and leave from the front once off-screen. */
module Pipes {

  /** A pair spawns every SpawnInterval ticks of play. */
  const SpawnInterval: nat := 100
  /** The random spawn offset is SpawnScale * min(rand + 1, MaxSpawnFactor). */
  const SpawnScale: real := -210.0
  const MaxSpawnFactor: real := 1.8
  /** Band of vertical offsets that SpawnOffset can produce. */
  const HighestOffset: real := -378.0
  const LowestOffset: real := -210.0

  /** x is the left edge; y is the top sprite's vertical offset. */
  datatype Pipe = Pipe(x: real, y: real)

  /** The vertical offset of a new pair from a uniform draw in [0, 1). The
      draw is clamped, so the highest offset is hit by a fifth of all draws. */
  function SpawnOffset(rand: real): (y: real)
    requires 0.0 <= rand < 1.0
    ensures HighestOffset <= y <= LowestOffset
    ensures y == HighestOffset <==> rand >= 0.8
    ensures y == LowestOffset <==> rand == 0.0
  {
    SpawnScale * (if rand + 1.0 < MaxSpawnFactor then rand + 1.0 else MaxSpawnFactor)
  }

  /** Pairs sorted strictly left to right from the front, all left of the
      spawn column, all with an offset in the spawn band. */
  ghost predicate Ordered(ps: seq<Pipe>, screenW: real)
  {
    Increasing(ps) && (forall i :: 0 <= i < |ps| ==> ps[i].x < screenW) && InBand(ps)
  }

  ghost predicate Increasing(ps: seq<Pipe>)
  {
    forall i, j :: 0 <= i < j < |ps| ==> ps[i].x < ps[j].x
  }

  ghost predicate InBand(ps: seq<Pipe>)
  {
    forall i :: 0 <= i < |ps| ==> HighestOffset <= ps[i].y <= LowestOffset
  }

  /** The stream after an optional spawn, before anything moves. */
  function Grown(ps: seq<Pipe>, spawn: bool, screenW: real, rand: real): seq<Pipe>
    requires 0.0 <= rand < 1.0
  {
    if spawn then ps + [Pipe(screenW, SpawnOffset(rand))] else ps
  }

  /** Every pair moved left by dx. */
  function Shift(ps: seq<Pipe>, dx: real): (r: seq<Pipe>)
    ensures |r| == |ps|
    ensures forall i :: 0 <= i < |r| ==> r[i] == Pipe(ps[i].x - dx, ps[i].y)
  {
    seq(|ps|, i requires 0 <= i < |ps| => Pipe(ps[i].x - dx, ps[i].y))
  }

  datatype Advance = Advance(pipes: seq<Pipe>, departed: bool)

  /** The pipe stream part of pipe.update: spawn, scroll every pair by dx,
      then drop the front pair once its left edge is beyond -topW. */
  function Scroll(ps: seq<Pipe>, spawn: bool, screenW: real, rand: real, dx: real, topW: real): (a: Advance)
    requires 0.0 <= rand < 1.0
    ensures var g := Grown(ps, spawn, screenW, rand);
            a.departed <==> |g| > 0 && g[0].x - dx < -topW
    ensures var g := Grown(ps, spawn, screenW, rand);
            var k := if a.departed then 1 else 0;
            && |a.pipes| == |g| - k
            && forall i :: 0 <= i < |a.pipes| ==> a.pipes[i] == Pipe(g[i + k].x - dx, g[i + k].y)
  {
    var g := Grown(ps, spawn, screenW, rand);
    var moved := Shift(g, dx);
    if |moved| > 0 && moved[0].x < -topW then Advance(moved[1..], true)
    else Advance(moved, false)
  }

  /** Spawning at the screen edge and then scrolling by a positive speed
      keeps the stream ordered. */
  lemma ShiftKeepsOrder(ps: seq<Pipe>, spawn: bool, screenW: real, rand: real, dx: real)
    requires 0.0 <= rand < 1.0
    ensures Ordered(ps, screenW) && dx > 0.0 ==> Ordered(Shift(Grown(ps, spawn, screenW, rand), dx), screenW)
  {
  }

  /** The stream step keeps the stream ordered while the speed is positive. */
  lemma ScrollKeepsOrder(ps: seq<Pipe>, spawn: bool, screenW: real, rand: real, dx: real, topW: real)
    requires 0.0 <= rand < 1.0
    requires Ordered(ps, screenW) && dx > 0.0
    ensures Ordered(Scroll(ps, spawn, screenW, rand, dx, topW).pipes, screenW)
  {
    ShiftKeepsOrder(ps, spawn, screenW, rand, dx);
    DropFrontKeepsOrder(Shift(Grown(ps, spawn, screenW, rand), dx), screenW);
  }

  /** Dropping the front pair keeps the stream ordered. */
  lemma DropFrontKeepsOrder(ps: seq<Pipe>, screenW: real)
    ensures Ordered(ps, screenW) && |ps| > 0 ==> Ordered(ps[1..], screenW)
  {
  }

  /** A pair spawned this tick is the rear pair afterwards, one scroll step
      left of the screen edge, unless the screen is so narrow that it
      leaves at once. */
  lemma ScrollSpawnsAtEdge(ps: seq<Pipe>, screenW: real, rand: real, dx: real, topW: real)
    requires 0.0 <= rand < 1.0
    requires screenW - dx >= -topW
    ensures var a := Scroll(ps, true, screenW, rand, dx, topW);
            |a.pipes| > 0 && a.pipes[|a.pipes| - 1] == Pipe(screenW - dx, SpawnOffset(rand))
  {
  }
}
