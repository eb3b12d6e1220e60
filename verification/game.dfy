/** The game engine: one World record holding every piece of mutable game
    state, the per-tick update functions in the order the game loop runs
    them, the score report guard, and the primary-action input handlers. */
module Game {
  import opened Difficulty
  import opened BirdPhysics
  import opened Pipes

  /** The three states of the state machine (0, 1 and 2 in the program). */
  datatype State = GetReady | Play | GameOver

  /** Sizes that come from asynchronously loaded images and the canvas:
      the bird's first animation sprite, the top pipe sprite, the canvas
      width and the ground line. They are held fixed while the game runs. */
  datatype Dims = Dims(birdW: real, birdH: real, topW: real, topH: real, screenW: real, groundY: real)

  datatype World = World(
    state: State,
    frames: nat,           // tick counter
    dx: real,              // current scroll speed
    bird: Bird,
    pipes: seq<Pipe>,      // front (oldest, leftmost) pair first
    gap: int,              // vertical gap of every pair
    moved: bool,           // the front pair may still award a point
    groundX: real,
    bgX: real,
    score: nat,
    tapFrame: nat,         // frame of the "tap" hint animation
    sfxPlayed: bool,       // the landing sound has played this run
    gameOverHandled: bool) // the score of this run has been reported

  /** The report to the external score sink, emitted at most once per run. */
  datatype Report = NoReport | ReportScore(score: nat)

  datatype TickResult = TickResult(world: World, report: Report)

  /** Result of the collision test, which also does the scoring. */
  datatype Contact = Contact(hit: bool, world: World)

  const BgSpeed: real := 0.5
  const TapFrames: nat := 2
  /** Key codes of space, W and arrow-up. */
  const KeySpace: int := 32
  const KeyW: int := 87
  const KeyUp: int := 38

  /** The world when the page loads. */
  const Initial: World := World(GetReady, 0, BaseSpeed, InitialBird, [], BaseGap, true,
                                0.0, 0.0, 0, 0, false, false)

  /** The radius used for the ground test. */
  function GroundRadius(d: Dims): real { d.birdW / 2.0 }

  /** The radius used for the pipe test. */
  function HitRadius(d: Dims): real { d.birdH / 4.0 + d.birdW / 4.0 }

  /** The bird at height y overlaps the front pair: its right extent is
      inside [x, x + w) and its vertical extent reaches the roof or the
      floor of the gap (both bounds inclusive). */
  ghost predicate Hits(pipes: seq<Pipe>, y: real, gap: int, d: Dims)
  {
    && |pipes| > 0
    && var r := HitRadius(d);
       var roof := pipes[0].y + d.topH;
       && pipes[0].x <= X + r < pipes[0].x + d.topW
       && (y - r <= roof || y + r >= roof + gap as real)
  }

  /** The bird has cleared the trailing edge of a front pair not yet credited. */
  ghost predicate Passes(pipes: seq<Pipe>, moved: bool, d: Dims)
  {
    && moved
    && |pipes| > 0
    && pipes[0].x <= X + HitRadius(d)
    && X + HitRadius(d) >= pipes[0].x + d.topW
  }

  /** bird.collisioned: tests the bird against the front pair only; when the
      bird is beyond that pair and it is still creditable, awards one point
      and clears the credit. An empty stream never collides. */
  function Collisioned(w: World, d: Dims): (c: Contact)
    ensures c.hit <==> Hits(w.pipes, w.bird.y, w.gap, d)
    ensures Passes(w.pipes, w.moved, d) ==> c.world == w.(score := w.score + 1, moved := false)
    ensures !Passes(w.pipes, w.moved, d) ==> c.world == w
  {
    if |w.pipes| == 0 then Contact(false, w)
    else
      var p := w.pipes[0];
      var r := HitRadius(d);
      var roof := p.y + d.topH;
      var floor := roof + w.gap as real;
      if X + r >= p.x then
        if X + r < p.x + d.topW then
          Contact(w.bird.y - r <= roof || w.bird.y + r >= floor, w)
        else if w.moved then
          Contact(false, w.(score := w.score + 1, moved := false))
        else Contact(false, w)
      else Contact(false, w)
  }

  /** In play, the bird after this tick's move reaches the ground line. */
  ghost predicate Lands(w: World, d: Dims)
  {
    w.bird.y + w.bird.speed + GroundRadius(d) >= d.groundY
  }

  /** In play, this tick's bird update awards a point: the ground test fails
      (so the collision test runs) and the bird passes a creditable pair. */
  ghost predicate Scores(w: World, d: Dims)
  {
    w.state == Play && !Lands(w, d) && Passes(w.pipes, w.moved, d)
  }

  /** The bird with this tick's trail point added: the position before the move. */
  function Traced(b: Bird): Bird
  {
    b.(path := UpdatePath(b.path, Point(X, b.y)))
  }

  /** bird.update on the get-ready screen: no physics; every tenth tick the
      bird wobbles by `bob` (standing for the sine of the tick count) and the
      wing frame advances. */
  function BirdReady(w: World, bob: real): (r: World)
    requires w.state == GetReady && -1.0 <= bob <= 1.0
    ensures r == w.(bird := r.bird)
    ensures r.bird == Traced(w.bird).(y := r.bird.y, rotation := 0.0, frame := r.bird.frame)
    ensures r.bird.frame < AnimationFrames
    ensures -1.0 <= r.bird.y - w.bird.y <= 1.0
    ensures w.frames % 10 != 0 ==> r.bird.y == w.bird.y && r.bird.frame == w.bird.frame % AnimationFrames
  {
    var b := Traced(w.bird);
    var wobble := w.frames % 10 == 0;
    w.(bird := b.(rotation := 0.0,
                  y := b.y + (if wobble then bob else 0.0),
                  frame := (b.frame + (if wobble then 1 else 0)) % AnimationFrames))
  }

  /** bird.update in play: move by the speed, tilt by the speed before
      gravity, accelerate; then the ground test and, only when it fails, the
      pipe test, which also awards points. */
  function BirdPlay(w: World, d: Dims): (r: World)
    requires w.state == Play
    ensures r == w.(state := r.state, bird := r.bird, score := r.score, moved := r.moved)
    ensures r.bird == Traced(w.bird).(y := w.bird.y + w.bird.speed, speed := w.bird.speed + Gravity,
                                      rotation := SetRotation(w.bird.speed), frame := r.bird.frame)
    ensures r.bird.frame < AnimationFrames
    ensures r.state == GameOver <==> Lands(w, d) || Hits(w.pipes, r.bird.y, w.gap, d)
    ensures r.state != GameOver ==> r.state == Play
    ensures Passes(w.pipes, w.moved, d) && !Lands(w, d) ==> r.score == w.score + 1 && !r.moved
    ensures !(Passes(w.pipes, w.moved, d) && !Lands(w, d)) ==> r.score == w.score && r.moved == w.moved
  {
    var b := Traced(w.bird);
    var y := b.y + b.speed;
    var w1 := w.(bird := b.(frame := (b.frame + (if w.frames % 5 == 0 then 1 else 0)) % AnimationFrames,
                            y := y,
                            rotation := SetRotation(b.speed),
                            speed := b.speed + Gravity));
    if y + GroundRadius(d) >= d.groundY then w1.(state := GameOver)
    else
      var c := Collisioned(w1, d);
      if c.hit then c.world.(state := GameOver) else c.world
  }

  /** bird.update in game over: fall at double gravity until the ground line,
      then rest on it nose down and mark the landing sound as played. */
  function BirdFall(w: World, d: Dims): (r: World)
    requires w.state == GameOver
    ensures r == w.(bird := r.bird, sfxPlayed := r.sfxPlayed)
    ensures r.bird == Traced(w.bird).(y := r.bird.y, speed := r.bird.speed, rotation := r.bird.rotation, frame := 1)
    ensures MinRotation <= r.bird.rotation <= MaxRotation
    ensures w.bird.y + GroundRadius(d) < d.groundY ==>
              && r.bird.y == w.bird.y + w.bird.speed && r.bird.speed == w.bird.speed + 2.0 * Gravity
              && r.bird.rotation == SetRotation(w.bird.speed) && r.sfxPlayed == w.sfxPlayed
    ensures w.bird.y + GroundRadius(d) >= d.groundY ==>
              && r.bird.y + GroundRadius(d) == d.groundY
              && r.bird.speed == 0.0 && r.bird.rotation == MaxRotation && r.sfxPlayed
  {
    var b := Traced(w.bird);
    var rg := GroundRadius(d);
    if b.y + rg < d.groundY then
      w.(bird := b.(frame := 1, y := b.y + b.speed, rotation := SetRotation(b.speed),
                    speed := b.speed + Gravity * 2.0))
    else
      w.(bird := b.(frame := 1, speed := 0.0, y := d.groundY - rg, rotation := 90.0),
         sfxPlayed := true)
  }

  /** bird.update: dispatch on the state. Across states: the trail gets the
      position before the move, the frame stays in [0, 4), the tilt in
      [-25, 90]; only play changes the state (to game over) or the score; the
      landing sound flag is only set in game over. */
  function BirdUpdate(w: World, d: Dims, bob: real): (r: World)
    requires -1.0 <= bob <= 1.0
    ensures r == w.(state := r.state, bird := r.bird, score := r.score, moved := r.moved,
                    sfxPlayed := r.sfxPlayed)
    ensures r.bird.path == UpdatePath(w.bird.path, Point(X, w.bird.y))
    ensures r.bird.frame < AnimationFrames
    ensures MinRotation <= r.bird.rotation <= MaxRotation
    ensures w.state == GetReady ==> r.state == GetReady
    ensures w.state == GameOver ==> r.state == GameOver
    ensures w.state == Play ==>
              && (r.state == GameOver <==> Lands(w, d) || Hits(w.pipes, w.bird.y + w.bird.speed, w.gap, d))
              && (r.state != GameOver ==> r.state == Play)
    ensures Scores(w, d) ==> r.score == w.score + 1 && !r.moved
    ensures !Scores(w, d) ==> r.score == w.score && r.moved == w.moved
    ensures r.sfxPlayed != w.sfxPlayed ==> w.state == GameOver && r.sfxPlayed
  {
    match w.state
    case GetReady => BirdReady(w, bob)
    case Play => BirdPlay(w, d)
    case GameOver => BirdFall(w, d)
  }

  /** gnd.update: the ground scrolls only during play. */
  function GroundUpdate(w: World): (r: World)
    ensures w.state == Play ==> r == w.(groundX := w.groundX - w.dx)
    ensures w.state != Play ==> r == w
  {
    if w.state != Play then w else w.(groundX := w.groundX - w.dx)
  }

  /** In play, the front pair leaves the screen in this tick's pipe update. */
  ghost predicate PipeDeparts(w: World, d: Dims, rand: real)
    requires 0.0 <= rand < 1.0
  {
    w.state == Play && Scroll(w.pipes, w.frames % SpawnInterval == 0, d.screenW, rand, w.dx, d.topW).departed
  }

  /** pipe.update with pipe.updateDifficulty: during play only, spawn a pair
      every SpawnInterval ticks, scroll, drop the front pair once off-screen
      (re-arming the credit), and recompute the gap from the score. */
  function PipeUpdate(w: World, d: Dims, rand: real): (r: World)
    requires 0.0 <= rand < 1.0
    ensures w.state != Play ==> r == w
    ensures r == w.(pipes := r.pipes, moved := r.moved, gap := r.gap)
    ensures w.state == Play ==> r.gap == Gap(w.score)
    ensures w.state == Play ==>
              r.pipes == Scroll(w.pipes, w.frames % SpawnInterval == 0, d.screenW, rand, w.dx, d.topW).pipes
    ensures r.moved <==> w.moved || PipeDeparts(w, d, rand)
    ensures w.frames % SpawnInterval != 0 ==> |r.pipes| <= |w.pipes|
  {
    if w.state != Play then w
    else
      var a := Scroll(w.pipes, w.frames % SpawnInterval == 0, d.screenW, rand, w.dx, d.topW);
      w.(pipes := a.pipes, moved := if a.departed then true else w.moved, gap := Gap(w.score))
  }

  /** Every 100th tick of play spawns a pair at the screen edge; it ends the
      tick as the rear pair, one scroll step in. */
  lemma PipeUpdateSpawnsAtEdge(w: World, d: Dims, rand: real)
    requires 0.0 <= rand < 1.0
    requires w.state == Play && w.frames % SpawnInterval == 0 && d.screenW - w.dx >= -d.topW
    ensures var r := PipeUpdate(w, d, rand);
            |r.pipes| > 0 && r.pipes[|r.pipes| - 1] == Pipe(d.screenW - w.dx, SpawnOffset(rand))
  {
  }

  /** The pipe update keeps the stream ordered while the scroll speed is positive. */
  lemma PipeUpdateKeepsOrder(w: World, d: Dims, rand: real)
    requires 0.0 <= rand < 1.0
    requires Ordered(w.pipes, d.screenW) && w.dx > 0.0
    ensures Ordered(PipeUpdate(w, d, rand).pipes, d.screenW)
  {
    if w.state == Play {
      ScrollKeepsOrder(w.pipes, w.frames % SpawnInterval == 0, d.screenW, rand, w.dx, d.topW);
    }
  }

  /** UI.update: the tap hint animates outside of play. */
  function UIUpdate(w: World): (r: World)
    ensures r == w.(tapFrame := r.tapFrame)
    ensures w.state == Play ==> r == w
    ensures w.state != Play ==> r.tapFrame < TapFrames
    ensures w.state != Play && w.frames % 10 != 0 ==> r.tapFrame == w.tapFrame % TapFrames
  {
    if w.state == Play then w
    else w.(tapFrame := (w.tapFrame + (if w.frames % 10 == 0 then 1 else 0)) % TapFrames)
  }

  /** bg.update: the background scrolls in every state. */
  function BgUpdate(w: World): World
  {
    w.(bgX := w.bgX - BgSpeed)
  }

  /** updateSpeed: the scroll speed follows the score. */
  function UpdateSpeed(w: World): World
  {
    w.(dx := Speed(w.score))
  }

  /** update(): the entities in the order the game loop updates them. */
  function Update(w: World, d: Dims, bob: real, rand: real): World
    requires -1.0 <= bob <= 1.0 && 0.0 <= rand < 1.0
  {
    UpdateSpeed(BgUpdate(UIUpdate(PipeUpdate(GroundUpdate(BirdUpdate(w, d, bob)), d, rand))))
  }

  /** handleGameOver: report the score the first time a tick ends in game
      over. The report's outcome is not an input: success or failure of the
      sink leaves the world as it is. */
  function HandleGameOver(w: World): (t: TickResult)
    ensures t.world == w.(gameOverHandled := t.world.gameOverHandled)
    ensures t.world.gameOverHandled <==> w.gameOverHandled || w.state == GameOver
    ensures t.report != NoReport <==> w.state == GameOver && !w.gameOverHandled
    ensures t.report != NoReport ==> t.report.score == w.score
  {
    if w.state == GameOver && !w.gameOverHandled then
      TickResult(w.(gameOverHandled := true), ReportScore(w.score))
    else TickResult(w, NoReport)
  }

  /** Handling the guard twice reports nothing more and changes nothing. */
  lemma HandleGameOverIdempotent(w: World)
    ensures HandleGameOver(HandleGameOver(w).world) == TickResult(HandleGameOver(w).world, NoReport)
  {
  }

  /** The front pair leaves during the tick that starts in w. */
  ghost predicate TickDeparts(w: World, d: Dims, bob: real, rand: real)
    requires -1.0 <= bob <= 1.0 && 0.0 <= rand < 1.0
  {
    PipeDeparts(GroundUpdate(BirdUpdate(w, d, bob)), d, rand)
  }

  /** gameLoop: update, (draw), count the frame, then handle game over in
      the same tick as the transition. */
  function Tick(w: World, d: Dims, bob: real, rand: real): (t: TickResult)
    requires -1.0 <= bob <= 1.0 && 0.0 <= rand < 1.0
    ensures t.world.frames == w.frames + 1
    ensures t.world.bgX == w.bgX - BgSpeed
    ensures t.world.dx == Speed(t.world.score)
    ensures w.state == GetReady ==> t.world.state == GetReady
    ensures w.state == Play ==> t.world.state != GetReady
    ensures w.state == GameOver ==> t.world.state == GameOver
    ensures w.state != Play ==> t.world.pipes == w.pipes && t.world.groundX == w.groundX
    ensures w.state != Play ==> t.world.score == w.score && t.world.moved == w.moved
    ensures t.report != NoReport <==> t.world.state == GameOver && !w.gameOverHandled
    ensures t.report != NoReport ==> t.report.score == t.world.score
    ensures t.world.state == GameOver ==> t.world.gameOverHandled
    ensures t.world.score == w.score || (t.world.score == w.score + 1 && w.moved && w.state == Play)
    ensures t.world.moved && !w.moved ==> TickDeparts(w, d, bob, rand)
    ensures t.world.moved && t.world.score == w.score + 1 ==> TickDeparts(w, d, bob, rand)
  {
    var u := Update(w, d, bob, rand);
    HandleGameOver(u.(frames := u.frames + 1))
  }

  /** resetGame. */
  function Reset(w: World): (r: World)
    ensures r.state == GetReady && r.pipes == [] && r.score == 0
    ensures r.bird.speed == 0.0 && r.bird.y == StartY
    ensures !r.sfxPlayed && !r.gameOverHandled
    ensures r.bird == w.bird.(speed := r.bird.speed, y := r.bird.y)
    ensures r == w.(state := r.state, bird := r.bird, pipes := r.pipes, score := r.score,
                    sfxPlayed := r.sfxPlayed, gameOverHandled := r.gameOverHandled)
  {
    w.(state := GetReady, bird := w.bird.(speed := 0.0, y := StartY), pipes := [], score := 0,
       sfxPlayed := false, gameOverHandled := false)
  }

  /** Resetting twice is resetting once. */
  lemma ResetIdempotent(w: World)
    ensures Reset(Reset(w)) == Reset(w)
  {
  }

  /** The click handler: start the run, flap, or reset, by state. */
  function OnPrimaryAction(w: World): (r: World)
    ensures w.state == GetReady ==> r == w.(state := Play)
    ensures w.state == Play ==> r == w.(bird := r.bird) && r.bird == w.bird.(speed := r.bird.speed)
    ensures w.state == Play && w.bird.y > 0.0 ==> r.bird.speed == -Thrust
    ensures w.state == Play && w.bird.y <= 0.0 ==> r == w
    ensures w.state == GameOver ==> r == Reset(w)
  {
    match w.state
    case GetReady => w.(state := Play)
    case Play => w.(bird := Flap(w.bird))
    case GameOver => Reset(w)
  }

  /** The key handler: space, W and arrow-up act like a click; every other
      key is ignored. */
  function KeyDown(w: World, keyCode: int): (r: World)
    ensures keyCode != KeySpace && keyCode != KeyW && keyCode != KeyUp ==> r == w
    ensures keyCode == KeySpace || keyCode == KeyW || keyCode == KeyUp ==> r == OnPrimaryAction(w)
  {
    if keyCode == KeySpace || keyCode == KeyW || keyCode == KeyUp then OnPrimaryAction(w) else w
  }

  /** The invariant every reachable world satisfies (for fixed sizes d). */
  ghost predicate Valid(w: World, d: Dims)
  {
    && w.bird.frame < AnimationFrames
    && w.tapFrame < TapFrames
    && |w.bird.path| <= MaxPathLength
    && MinRotation <= w.bird.rotation <= MaxRotation
    && BaseSpeed <= w.dx <= MaxSpeed
    && MinGap <= w.gap <= BaseGap
    && (w.gameOverHandled <==> w.state == GameOver)
    && (w.sfxPlayed ==> w.state == GameOver)
    && (w.state == GetReady ==> w.pipes == [])
    && Ordered(w.pipes, d.screenW)
  }

  lemma InitialValid(d: Dims)
    ensures Valid(Initial, d)
  {
  }

  /** Every tick keeps the invariant. */
  lemma TickPreservesValid(w: World, d: Dims, bob: real, rand: real)
    requires -1.0 <= bob <= 1.0 && 0.0 <= rand < 1.0
    requires Valid(w, d)
    ensures Valid(Tick(w, d, bob, rand).world, d)
  {
    var w1 := BirdUpdate(w, d, bob);
    var w2 := GroundUpdate(w1);
    PipeUpdateKeepsOrder(w2, d, rand);
    var w3 := PipeUpdate(w2, d, rand);
    var w4 := UIUpdate(w3);
    assert w4.tapFrame < TapFrames;
  }

  /** Every input keeps the invariant. */
  lemma ActionPreservesValid(w: World, d: Dims)
    requires Valid(w, d)
    ensures Valid(OnPrimaryAction(w), d)
  {
  }
}
