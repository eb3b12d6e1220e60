/** The bird entity: its vertical physics, the flap impulse, the tilt derived
    from its speed, and the bounded trail of recent positions. */
module BirdPhysics {

  /** The bird's fixed horizontal position and starting height. */
  const X: real := 50.0
  const StartY: real := 100.0
  /** Per-tick acceleration and the upward speed a flap sets. */
  const Gravity: real := 0.125
  const Thrust: real := 3.6
  /** Number of remembered trail points. */
  const MaxPathLength: nat := 20
  /** Number of entries of the animation table. */
  const AnimationFrames: nat := 4
  /** Tilt bounds, in degrees. */
  const MinRotation: real := -25.0
  const MaxRotation: real := 90.0

  datatype Point = Point(x: real, y: real)

  /** The mutable part of the bird; x never changes and is the constant X. */
  datatype Bird = Bird(y: real, speed: real, rotation: real, frame: nat, path: seq<Point>)

  const InitialBird: Bird := Bird(StartY, 0.0, 0.0, 0, [])

  function MaxReal(a: real, b: real): real { if a >= b then a else b }
  function MinReal(a: real, b: real): real { if a <= b then a else b }

  /** bird.flap: a flap sets an upward speed, but only while the bird is
      below the top edge of the screen; nothing else changes. */
  function Flap(b: Bird): (r: Bird)
    ensures r == b.(speed := r.speed)
    ensures b.y > 0.0 ==> r.speed == -Thrust
    ensures b.y <= 0.0 ==> r == b
  {
    if b.y > 0.0 then b.(speed := -Thrust) else b
  }

  /** bird.setRotation: the tilt is proportional to the speed, with the
      full nose-up tilt reached at -Thrust and the full dive at 2 * Thrust. */
  function SetRotation(speed: real): (rot: real)
    ensures MinRotation <= rot <= MaxRotation
    ensures rot <= 0.0 <==> speed <= 0.0
    ensures rot == MinRotation <==> speed <= -Thrust
    ensures rot == MaxRotation <==> speed >= 2.0 * Thrust
  {
    if speed <= 0.0 then MaxReal(-25.0, (-25.0 * speed) / (-1.0 * Thrust))
    else MinReal(90.0, (90.0 * speed) / (Thrust * 2.0))
  }

  /** A faster fall never tilts the bird less. */
  lemma SetRotationMonotone(s: real, t: real)
    requires s <= t
    ensures SetRotation(s) <= SetRotation(t)
  {
  }

  /** bird.updatePath: the newest position goes in front and, once the trail
      is longer than MaxPathLength, the oldest point is dropped. */
  function UpdatePath(path: seq<Point>, p: Point): (r: seq<Point>)
    ensures |r| > 0 && r[0] == p
    ensures |path| < MaxPathLength ==> |r| == |path| + 1
    ensures |path| >= MaxPathLength ==> |r| == |path|
    ensures forall i :: 1 <= i < |r| ==> r[i] == path[i - 1]
  {
    var pushed := [p] + path;
    if |pushed| > MaxPathLength then pushed[..|pushed| - 1] else pushed
  }

  /** The trail left by feeding the positions ps, oldest first, into an
      initially empty trail. */
  function Trail(ps: seq<Point>): seq<Point>
    decreases |ps|
  {
    if ps == [] then [] else UpdatePath(Trail(ps[..|ps| - 1]), ps[|ps| - 1])
  }

  /** However many positions were recorded, the trail holds the most recent
      MaxPathLength of them, newest first. */
  lemma {:induction false} TrailIsRecentPositions(ps: seq<Point>)
    ensures |Trail(ps)| == if |ps| < MaxPathLength then |ps| else MaxPathLength
    ensures forall i :: 0 <= i < |Trail(ps)| ==> Trail(ps)[i] == ps[|ps| - 1 - i]
  {
    if ps != [] {
      var front := ps[..|ps| - 1];
      TrailIsRecentPositions(front);
      var t := Trail(ps);
      forall i | 0 <= i < |t|
        ensures t[i] == ps[|ps| - 1 - i]
      {
        if i > 0 {
          assert t[i] == Trail(front)[i - 1];
          assert Trail(front)[i - 1] == front[|front| - 1 - (i - 1)];
        }
      }
    }
  }
}
