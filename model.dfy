/** The game state of model.js: the player, the stars to collect, the
    obstacles, the countdown and the outcome flags, with every operation
    that changes them. */
module GameModel {
  import opened Geometry
  import opened Sequences

  const PLAYER_SIZE: real := 0.1
  const STAR_SIZE: real := 0.05
  const OBSTACLE_SIZE: real := 0.1
  const STAR_COUNT: nat := 10
  const OBSTACLE_COUNT: nat := 5
  const START_TIME: real := 60.0

  /** Red, green, blue, yellow, magenta: the colours of stars and obstacles. */
  const Palette: seq<Rgba> := [
    Rgba(1.0, 0.0, 0.0, 1.0),
    Rgba(0.0, 1.0, 0.0, 1.0),
    Rgba(0.0, 0.0, 1.0, 1.0),
    Rgba(1.0, 1.0, 0.0, 1.0),
    Rgba(1.0, 0.0, 1.0, 1.0)
  ]

  /** The player's own orange. */
  const PlayerColor: Rgba := Rgba(1.0, 0.5, 0.0, 1.0)

  /** Everything the game logic reads or writes, as one value. */
  datatype GameState = GameState(
    player: Circle,
    stars: seq<Circle>,
    obstacles: seq<Circle>,
    timeLeft: real,
    gameOver: bool,
    win: bool,
    lostDueToObstacle: bool)

  // ---------------------------------------------------------------------
  // Random placement. Math.random() is not modelled: its draws are inputs.
  // ---------------------------------------------------------------------

  /** The two Math.random() draws of one placement try, for x and for y. */
  datatype Sample = Sample(rx: real, ry: real)

  /** The draws one star or obstacle consumes: the tries of its retry loop,
      then the draw that picks its colour. */
  datatype ItemDraws = ItemDraws(tries: seq<Sample>, colorDraw: real)

  /** A value Math.random() can return. */
  predicate IsUnit(u: real) { 0.0 <= u < 1.0 }

  predicate UnitSamples(tries: seq<Sample>)
  {
    forall j :: 0 <= j < |tries| ==> IsUnit(tries[j].rx) && IsUnit(tries[j].ry)
  }

  /** A draw scaled to a width. */
  function Scale(u: real, w: real): real { u * w }

  /** `u * (2 - margin * 2) - (1 - margin)`: a draw spread over the board
      minus a margin on each side. The player's `u * 2 - 1` is margin 0. */
  function Spread(u: real, margin: real): real
  {
    Scale(u, 2.0 - margin * 2.0) - (1.0 - margin)
  }

  /** A draw lands inside the board minus the margin on each side. */
  lemma SpreadRange(u: real, margin: real)
    requires IsUnit(u) && 0.0 <= margin < 1.0
    ensures -1.0 + margin <= Spread(u, margin) < 1.0 - margin
  {
    UnitScale(u, 2.0 - margin * 2.0);
  }

  /** A unit draw scaled by a positive width stays below that width. */
  lemma UnitScale(u: real, w: real)
    requires IsUnit(u) && 0.0 < w
    ensures 0.0 <= Scale(u, w) < w
  {
  }

  /** `this.colors[Math.floor(Math.random() * this.colors.length)]`. */
  function ColorIndex(u: real): (k: nat)
    requires IsUnit(u)
    ensures k < |Palette|
  {
    (u * (|Palette| as real)).Floor
  }

  /** The try lands clear of every circle of `others`. */
  predicate Lands(t: Sample, margin: real, size: real, others: seq<Circle>)
  {
    ClearOf(Spread(t.rx, margin), Spread(t.ry, margin), size, others)
  }

  /** The retry loop over `tries` terminates. */
  predicate HasLanding(tries: seq<Sample>, margin: real, size: real, others: seq<Circle>)
  {
    exists j :: 0 <= j < |tries| && Lands(tries[j], margin, size, others)
  }

  /** The try on which the retry loop stops: the first one that lands. */
  function FirstLanding(tries: seq<Sample>, margin: real, size: real, others: seq<Circle>): (k: nat)
    requires HasLanding(tries, margin, size, others)
    ensures k < |tries| && Lands(tries[k], margin, size, others)
    ensures forall j :: 0 <= j < k ==> !Lands(tries[j], margin, size, others)
    decreases |tries|
  {
    if Lands(tries[0], margin, size, others) then 0
    else
      assert HasLanding(tries[1..], margin, size, others) by {
        var j :| 0 <= j < |tries| && Lands(tries[j], margin, size, others);
        assert tries[1..][j - 1] == tries[j];
      }
      1 + FirstLanding(tries[1..], margin, size, others)
  }

  /** Every item has a landing try, unit draws and a unit colour draw. */
  predicate Drawable(ds: seq<ItemDraws>, margin: real, size: real, others: seq<Circle>)
  {
    forall i :: 0 <= i < |ds| ==>
      HasLanding(ds[i].tries, margin, size, others) && UnitSamples(ds[i].tries) && IsUnit(ds[i].colorDraw)
  }

  /** The circle one item ends up as. */
  function PlaceAt(d: ItemDraws, margin: real, size: real, others: seq<Circle>): Circle
    requires HasLanding(d.tries, margin, size, others) && IsUnit(d.colorDraw)
  {
    var t := d.tries[FirstLanding(d.tries, margin, size, others)];
    Circle(Spread(t.rx, margin), Spread(t.ry, margin), size, Palette[ColorIndex(d.colorDraw)])
  }

  /** The circles a creation loop pushes, one per item: each clear of
      `others` and inside the board minus the margin. */
  function PlacedAll(ds: seq<ItemDraws>, margin: real, size: real, others: seq<Circle>): (r: seq<Circle>)
    requires Drawable(ds, margin, size, others)
    ensures |r| == |ds|
    ensures forall i :: 0 <= i < |r| ==> r[i].size == size && ClearOf(r[i].x, r[i].y, size, others)
  {
    seq(|ds|, i requires 0 <= i < |ds| => PlaceAt(ds[i], margin, size, others))
  }

  /** No placed item overlaps any circle it was placed clear of. */
  lemma PlacedAvoids(ds: seq<ItemDraws>, margin: real, size: real, others: seq<Circle>)
    requires Drawable(ds, margin, size, others)
    ensures var r := PlacedAll(ds, margin, size, others);
      forall i, j :: 0 <= i < |r| && 0 <= j < |others| ==> !Overlaps(r[i], others[j])
  {
    var r := PlacedAll(ds, margin, size, others);
    forall i, j | 0 <= i < |r| && 0 <= j < |others|
      ensures !Overlaps(r[i], others[j])
    {
      assert ClearOf(r[i].x, r[i].y, size, others);
    }
  }

  /** Every placed item lies inside the board minus its margin. */
  lemma PlacedInRange(ds: seq<ItemDraws>, margin: real, size: real, others: seq<Circle>)
    requires Drawable(ds, margin, size, others) && 0.0 <= margin < 1.0
    ensures var r := PlacedAll(ds, margin, size, others);
      forall i :: 0 <= i < |r| ==> -1.0 + margin <= r[i].x < 1.0 - margin && -1.0 + margin <= r[i].y < 1.0 - margin
  {
    var r := PlacedAll(ds, margin, size, others);
    forall i | 0 <= i < |r|
      ensures -1.0 + margin <= r[i].x < 1.0 - margin && -1.0 + margin <= r[i].y < 1.0 - margin
    {
      var t := ds[i].tries[FirstLanding(ds[i].tries, margin, size, others)];
      SpreadRange(t.rx, margin);
      SpreadRange(t.ry, margin);
    }
  }

  /** The `while (!safe)` retry loop: draw a try, test it against `others`,
      stop at the first that lands. */
  method SampleUntilSafe(tries: seq<Sample>, margin: real, size: real, others: seq<Circle>)
    returns (x: real, y: real)
    requires HasLanding(tries, margin, size, others)
    ensures ClearOf(x, y, size, others)
    ensures var k := FirstLanding(tries, margin, size, others);
      x == Spread(tries[k].rx, margin) && y == Spread(tries[k].ry, margin)
  {
    ghost var w := FirstLanding(tries, margin, size, others);
    var safe := false;
    var k := 0;
    x, y := 0.0, 0.0;
    while !safe
      invariant 0 <= k <= w + 1
      invariant forall j :: 0 <= j < k - 1 ==> !Lands(tries[j], margin, size, others)
      invariant safe ==> k >= 1 && Lands(tries[k - 1], margin, size, others)
      invariant !safe ==> k <= w && forall j :: 0 <= j < k ==> !Lands(tries[j], margin, size, others)
      invariant k >= 1 ==> x == Spread(tries[k - 1].rx, margin) && y == Spread(tries[k - 1].ry, margin)
      decreases w + 1 - k
    {
      x := Spread(tries[k].rx, margin);
      y := Spread(tries[k].ry, margin);
      safe := CheckClear(x, y, size, others);
      k := k + 1;
    }
  }

  /** The draws make every retry loop of construction terminate: stars are
      placed while there are no obstacles yet, obstacles clear of the stars,
      the player clear of the obstacles. */
  predicate SetupDraws(starDraws: seq<ItemDraws>, obstacleDraws: seq<ItemDraws>, playerTries: seq<Sample>)
  {
    |starDraws| == STAR_COUNT && Drawable(starDraws, STAR_SIZE, STAR_SIZE, []) &&
    |obstacleDraws| == OBSTACLE_COUNT &&
    Drawable(obstacleDraws, OBSTACLE_SIZE, OBSTACLE_SIZE, PlacedAll(starDraws, STAR_SIZE, STAR_SIZE, [])) &&
    UnitSamples(playerTries) &&
    HasLanding(playerTries, 0.0, PLAYER_SIZE,
      PlacedAll(obstacleDraws, OBSTACLE_SIZE, OBSTACLE_SIZE, PlacedAll(starDraws, STAR_SIZE, STAR_SIZE, [])))
  }

  // ---------------------------------------------------------------------
  // The state transitions, as functions of the state.
  // ---------------------------------------------------------------------

  /** One axis of the boundary check: keep `v` so that `v - half` and
      `v + half` stay within [-1, 1]. */
  function ClampAxis(v: real, half: real): (r: real)
    ensures half <= 1.0 ==> -1.0 + half <= r <= 1.0 - half
    ensures -1.0 + half <= v <= 1.0 - half ==> r == v
    ensures v < -1.0 + half ==> r == -1.0 + half
    ensures half <= 1.0 && v > 1.0 - half ==> r == 1.0 - half
  {
    if v - half < -1.0 then -1.0 + half
    else if v + half > 1.0 then 1.0 - half
    else v
  }

  /** The star pickup: the first star the player overlaps is removed. */
  function AfterPickup(s: GameState): (t: GameState)
    ensures t.player == s.player && t.obstacles == s.obstacles && t.timeLeft == s.timeLeft
    ensures t.gameOver == s.gameOver && t.win == s.win && t.lostDueToObstacle == s.lostDueToObstacle
    ensures !AnyOverlap(s.player, s.stars) ==> t.stars == s.stars
    ensures AnyOverlap(s.player, s.stars) ==>
      var k := FirstOverlap(s.player, s.stars);
      Overlaps(s.player, s.stars[k]) && t.stars == RemoveAt(s.stars, k)
  {
    var k := FirstOverlap(s.player, s.stars);
    if k < |s.stars| then s.(stars := RemoveAt(s.stars, k)) else s
  }

  /** checkCollisions: pick up at most one star, then an obstacle hit ends
      the game as lost before the win check; with no hit, an empty star
      array wins. */
  function AfterCollisions(s: GameState): (t: GameState)
    ensures t.player == s.player && t.obstacles == s.obstacles && t.timeLeft == s.timeLeft
    ensures t.stars == AfterPickup(s).stars
    ensures |t.stars| == |s.stars| || |t.stars| == |s.stars| - 1
    ensures AnyOverlap(s.player, s.obstacles) ==> t.gameOver && !t.win && t.lostDueToObstacle
    ensures !AnyOverlap(s.player, s.obstacles) ==>
      t.lostDueToObstacle == s.lostDueToObstacle &&
      (t.gameOver <==> s.gameOver || |t.stars| == 0) &&
      (t.win <==> s.win || |t.stars| == 0)
  {
    var p := AfterPickup(s);
    if AnyOverlap(p.player, p.obstacles) then p.(gameOver := true, win := false, lostDueToObstacle := true)
    else if |p.stars| == 0 then p.(win := true, gameOver := true)
    else p
  }

  /** The player moved by (dx, dy), each axis clamped to the board on its own. */
  function Clamped(s: GameState, dx: real, dy: real): GameState
  {
    var half := s.player.size / 2.0;
    s.(player := s.player.(x := ClampAxis(s.player.x + dx, half), y := ClampAxis(s.player.y + dy, half)))
  }

  /** updatePlayerPosition: nothing once the game is over; otherwise move by
      (dx, dy), clamp each axis, then check collisions. */
  function AfterMove(s: GameState, dx: real, dy: real): GameState
  {
    if s.gameOver then s else AfterCollisions(Clamped(s, dx, dy))
  }

  /** updateTime: nothing once the game is over; otherwise count down, and
      on reaching zero stop at exactly zero and end the game as not won. */
  function AfterTime(s: GameState, d: real): (t: GameState)
    ensures t.player == s.player && t.stars == s.stars && t.obstacles == s.obstacles
    ensures t.lostDueToObstacle == s.lostDueToObstacle
    ensures s.gameOver ==> t == s
    ensures !s.gameOver ==>
      (t.gameOver <==> s.timeLeft - d <= 0.0) &&
      t.timeLeft == (if s.timeLeft - d <= 0.0 then 0.0 else s.timeLeft - d) &&
      t.win == (s.win && s.timeLeft - d > 0.0)
  {
    if s.gameOver then s
    else if s.timeLeft - d <= 0.0 then s.(timeLeft := 0.0, gameOver := true, win := false)
    else s.(timeLeft := s.timeLeft - d)
  }

  /** The player lies inside the board with the half-size clamp margin. */
  predicate OnBoard(s: GameState)
  {
    var half := s.player.size / 2.0;
    -1.0 + half <= s.player.x <= 1.0 - half && -1.0 + half <= s.player.y <= 1.0 - half
  }

  /** The outcome flags agree with each other, the timer and the stars: a
      game in progress has time and stars left and no outcome; a won game
      has no stars; a game over with neither flag ran out of time with
      stars still to collect. */
  predicate Coherent(s: GameState)
  {
    s.player.size == PLAYER_SIZE &&
    s.timeLeft >= 0.0 &&
    (!s.gameOver ==> s.timeLeft > 0.0 && |s.stars| > 0 && !s.win && !s.lostDueToObstacle) &&
    (s.win ==> !s.lostDueToObstacle && |s.stars| == 0) &&
    (s.gameOver && !s.win && !s.lostDueToObstacle ==> s.timeLeft == 0.0 && |s.stars| > 0)
  }

  // ---------------------------------------------------------------------
  // Properties of single transitions.
  // ---------------------------------------------------------------------

  /** After a move the player is on the board, each axis clamped on its own. */
  lemma MoveStaysOnBoard(s: GameState, dx: real, dy: real)
    requires !s.gameOver && s.player.size == PLAYER_SIZE
    ensures var p := AfterMove(s, dx, dy).player;
      -0.95 <= p.x <= 0.95 && -0.95 <= p.y <= 0.95 &&
      p.x == ClampAxis(s.player.x + dx, 0.05) && p.y == ClampAxis(s.player.y + dy, 0.05)
  {
  }

  /** On each axis on its own, a move that keeps the player's edges inside
      [-1, 1] moves it by exactly dx (or dy), whatever the other axis does. */
  lemma MoveIsExact(s: GameState, dx: real, dy: real)
    requires !s.gameOver && s.player.size == PLAYER_SIZE
    ensures -1.0 <= s.player.x + dx - 0.05 && s.player.x + dx + 0.05 <= 1.0 ==>
      AfterMove(s, dx, dy).player.x == s.player.x + dx
    ensures -1.0 <= s.player.y + dy - 0.05 && s.player.y + dy + 0.05 <= 1.0 ==>
      AfterMove(s, dx, dy).player.y == s.player.y + dy
    ensures AfterMove(s, dx, dy).player.size == s.player.size
  {
    MoveStaysOnBoard(s, dx, dy);
  }

  /** Once the game is over, neither a move nor the timer changes anything. */
  lemma FrozenWhenOver(s: GameState, dx: real, dy: real, d: real)
    requires s.gameOver
    ensures AfterMove(s, dx, dy) == s && AfterTime(s, d) == s
  {
  }

  /** A move never touches the obstacles or the timer, and leaves the stars
      a subsequence of what they were, at most one shorter. */
  lemma MoveKeepsObstacles(s: GameState, dx: real, dy: real)
    ensures var t := AfterMove(s, dx, dy);
      t.obstacles == s.obstacles && t.timeLeft == s.timeLeft &&
      Embeds(t.stars, s.stars) && |s.stars| - 1 <= |t.stars| <= |s.stars|
  {
    var t := AfterMove(s, dx, dy);
    if s.gameOver {
      EmbedsReflexive(s.stars);
    } else {
      var m := Clamped(s, dx, dy);
      if AnyOverlap(m.player, m.stars) {
        RemoveAtEmbeds(m.stars, FirstOverlap(m.player, m.stars));
      } else {
        EmbedsReflexive(s.stars);
      }
    }
  }

  /** A move and a timer update each keep the state coherent. */
  lemma StepsKeepCoherent(s: GameState, dx: real, dy: real, d: real)
    requires Coherent(s)
    ensures Coherent(AfterMove(s, dx, dy)) && Coherent(AfterTime(s, d))
  {
  }

  // ---------------------------------------------------------------------
  // Whole runs of moves and timer updates.
  // ---------------------------------------------------------------------

  datatype Step = Move(dx: real, dy: real) | Elapse(d: real)

  function Apply(s: GameState, st: Step): GameState
  {
    match st
    case Move(dx, dy) => AfterMove(s, dx, dy)
    case Elapse(d) => AfterTime(s, d)
  }

  function Run(s: GameState, steps: seq<Step>): GameState
    decreases |steps|
  {
    if steps == [] then s else Run(Apply(s, steps[0]), steps[1..])
  }

  /** Running two lists of steps one after the other is running their concatenation. */
  lemma {:induction false} RunAppend(s: GameState, a: seq<Step>, b: seq<Step>)
    ensures Run(s, a + b) == Run(Run(s, a), b)
    decreases |a|
  {
    if a == [] {
      assert a + b == b;
    } else {
      assert (a + b)[1..] == a[1..] + b;
      RunAppend(Apply(s, a[0]), a[1..], b);
    }
  }

  /** A finished game stays exactly as it is, whatever happens afterwards. */
  lemma {:induction false} RunFrozen(s: GameState, steps: seq<Step>)
    requires s.gameOver
    ensures Run(s, steps) == s
    decreases |steps|
  {
    if steps != [] {
      RunFrozen(Apply(s, steps[0]), steps[1..]);
    }
  }

  /** Over any run: the state stays coherent, a finished game stays
      finished, the obstacles never change, and the stars left are the
      original ones with some removed, in their original order. */
  lemma {:induction false} RunInvariant(s: GameState, steps: seq<Step>)
    requires Coherent(s)
    ensures var t := Run(s, steps);
      Coherent(t) && (s.gameOver ==> t.gameOver) &&
      t.obstacles == s.obstacles && Embeds(t.stars, s.stars) && |t.stars| <= |s.stars|
    decreases |steps|
  {
    if steps == [] {
      EmbedsReflexive(s.stars);
    } else {
      var s1 := Apply(s, steps[0]);
      match steps[0] {
        case Move(dx, dy) =>
          StepsKeepCoherent(s, dx, dy, 0.0);
          MoveKeepsObstacles(s, dx, dy);
        case Elapse(d) =>
          StepsKeepCoherent(s, 0.0, 0.0, d);
          EmbedsReflexive(s.stars);
      }
      RunInvariant(s1, steps[1..]);
      EmbedsTransitive(Run(s1, steps[1..]).stars, s1.stars, s.stars);
    }
  }

  /** Over any run from a coherent state, a game whose stars are all
      collected and that was not lost to an obstacle has been won. */
  lemma ClearedMeansWon(s: GameState, steps: seq<Step>)
    requires Coherent(s)
    ensures var t := Run(s, steps);
      |t.stars| == 0 && !t.lostDueToObstacle ==> t.gameOver && t.win
  {
    RunInvariant(s, steps);
  }

  /** Once the player is on the board it stays there for the rest of the run. */
  lemma {:induction false} RunOnBoard(s: GameState, steps: seq<Step>)
    requires OnBoard(s) && s.player.size == PLAYER_SIZE
    ensures OnBoard(Run(s, steps))
    decreases |steps|
  {
    if steps != [] {
      var s1 := Apply(s, steps[0]);
      match steps[0] {
        case Move(dx, dy) =>
          if !s.gameOver {
            MoveStaysOnBoard(s, dx, dy);
          }
        case Elapse(d) =>
      }
      RunOnBoard(s1, steps[1..]);
    }
  }

  // ---------------------------------------------------------------------
  // The mutable game object.
  // ---------------------------------------------------------------------

  class Model {
    var player: Circle
    var stars: seq<Circle>
    var obstacles: seq<Circle>
    var gameOver: bool
    var win: bool
    var timeLeft: real
    var lostDueToObstacle: bool

    function State(): GameState
      reads this
    {
      GameState(player, stars, obstacles, timeLeft, gameOver, win, lostDueToObstacle)
    }

    /** A new game: ten stars, then five obstacles clear of them, then the
        player clear of the obstacles; 60 seconds on the clock and no outcome. */
    constructor (starDraws: seq<ItemDraws>, obstacleDraws: seq<ItemDraws>, playerTries: seq<Sample>)
      requires SetupDraws(starDraws, obstacleDraws, playerTries)
      ensures stars == PlacedAll(starDraws, STAR_SIZE, STAR_SIZE, [])
      ensures obstacles == PlacedAll(obstacleDraws, OBSTACLE_SIZE, OBSTACLE_SIZE, stars)
      ensures var k := FirstLanding(playerTries, 0.0, PLAYER_SIZE, obstacles);
        player == Circle(Spread(playerTries[k].rx, 0.0), Spread(playerTries[k].ry, 0.0), PLAYER_SIZE, PlayerColor)
      ensures |stars| == STAR_COUNT && |obstacles| == OBSTACLE_COUNT
      ensures forall i, j :: 0 <= i < |obstacles| && 0 <= j < |stars| ==> !Overlaps(obstacles[i], stars[j])
      ensures forall i :: 0 <= i < |obstacles| ==> !Overlaps(player, obstacles[i])
      ensures forall i :: 0 <= i < |stars| ==> -0.95 <= stars[i].x < 0.95 && -0.95 <= stars[i].y < 0.95
      ensures forall i :: 0 <= i < |obstacles| ==> -0.9 <= obstacles[i].x < 0.9 && -0.9 <= obstacles[i].y < 0.9
      ensures -1.0 <= player.x < 1.0 && -1.0 <= player.y < 1.0
      ensures timeLeft == START_TIME && !gameOver && !win && !lostDueToObstacle
      ensures Coherent(State())
    {
      player := Circle(0.0, 0.0, PLAYER_SIZE, PlayerColor);
      stars := [];
      obstacles := [];
      new;
      CreateStars(starDraws);
      assert stars == PlacedAll(starDraws, STAR_SIZE, STAR_SIZE, []);
      CreateObstacles(obstacleDraws);
      assert obstacles == PlacedAll(obstacleDraws, OBSTACLE_SIZE, OBSTACLE_SIZE, stars);
      assert player.size == PLAYER_SIZE;
      assert HasLanding(playerTries, 0.0, PLAYER_SIZE, obstacles);
      PlacePlayerSafely(playerTries);
      PlacedInRange(starDraws, STAR_SIZE, STAR_SIZE, []);
      PlacedInRange(obstacleDraws, OBSTACLE_SIZE, OBSTACLE_SIZE, stars);
      PlacedAvoids(obstacleDraws, OBSTACLE_SIZE, OBSTACLE_SIZE, stars);
      ghost var k := FirstLanding(playerTries, 0.0, PLAYER_SIZE, obstacles);
      SpreadRange(playerTries[k].rx, 0.0);
      SpreadRange(playerTries[k].ry, 0.0);
      gameOver := false;
      win := false;
      timeLeft := START_TIME;
      lostDueToObstacle := false;
    }

    /** Push ten stars, each placed clear of the current obstacles. */
    method CreateStars(draws: seq<ItemDraws>)
      requires |draws| == STAR_COUNT && Drawable(draws, STAR_SIZE, STAR_SIZE, obstacles)
      modifies this`stars
      ensures stars == old(stars) + PlacedAll(draws, STAR_SIZE, STAR_SIZE, obstacles)
    {
      for i := 0 to STAR_COUNT
        invariant stars == old(stars) + PlacedAll(draws[..i], STAR_SIZE, STAR_SIZE, obstacles)
      {
        var x, y := SampleUntilSafe(draws[i].tries, STAR_SIZE, STAR_SIZE, obstacles);
        stars := stars + [Circle(x, y, STAR_SIZE, Palette[ColorIndex(draws[i].colorDraw)])];
        assert draws[..i + 1] == draws[..i] + [draws[i]];
      }
      assert draws[..STAR_COUNT] == draws;
    }

    /** Push five obstacles, each placed clear of the current stars. */
    method CreateObstacles(draws: seq<ItemDraws>)
      requires |draws| == OBSTACLE_COUNT && Drawable(draws, OBSTACLE_SIZE, OBSTACLE_SIZE, stars)
      modifies this`obstacles
      ensures obstacles == old(obstacles) + PlacedAll(draws, OBSTACLE_SIZE, OBSTACLE_SIZE, stars)
    {
      for i := 0 to OBSTACLE_COUNT
        invariant obstacles == old(obstacles) + PlacedAll(draws[..i], OBSTACLE_SIZE, OBSTACLE_SIZE, stars)
      {
        var x, y := SampleUntilSafe(draws[i].tries, OBSTACLE_SIZE, OBSTACLE_SIZE, stars);
        obstacles := obstacles + [Circle(x, y, OBSTACLE_SIZE, Palette[ColorIndex(draws[i].colorDraw)])];
        assert draws[..i + 1] == draws[..i] + [draws[i]];
      }
      assert draws[..OBSTACLE_COUNT] == draws;
    }

    /** Move the player to the first try, drawn over the whole board, that
        is clear of every obstacle. */
    method PlacePlayerSafely(tries: seq<Sample>)
      requires HasLanding(tries, 0.0, player.size, obstacles)
      modifies this`player
      ensures var k := FirstLanding(tries, 0.0, old(player.size), obstacles);
        player == old(player).(x := Spread(tries[k].rx, 0.0), y := Spread(tries[k].ry, 0.0))
      ensures ClearOf(player.x, player.y, player.size, obstacles)
    {
      var x, y := SampleUntilSafe(tries, 0.0, player.size, obstacles);
      player := player.(x := x, y := y);
    }

    method UpdatePlayerPosition(dx: real, dy: real)
      modifies this
      ensures State() == AfterMove(old(State()), dx, dy)
    {
      if gameOver {
        return;
      }
      var newX := player.x + dx;
      var newY := player.y + dy;
      var halfSize := player.size / 2.0;

      if newX - halfSize < -1.0 {
        player := player.(x := -1.0 + halfSize);
      } else if newX + halfSize > 1.0 {
        player := player.(x := 1.0 - halfSize);
      } else {
        player := player.(x := newX);
      }

      if newY - halfSize < -1.0 {
        player := player.(y := -1.0 + halfSize);
      } else if newY + halfSize > 1.0 {
        player := player.(y := 1.0 - halfSize);
      } else {
        player := player.(y := newY);
      }
      assert State() == Clamped(old(State()), dx, dy);

      CheckCollisions();
    }

    method CheckCollisions()
      modifies this
      ensures State() == AfterCollisions(old(State()))
    {
      var i := 0;
      while i < |stars|
        invariant 0 <= i <= |stars|
        invariant State() == old(State())
        invariant forall j :: 0 <= j < i ==> !Overlaps(player, stars[j])
      {
        if Overlaps(player, stars[i]) {
          assert i == FirstOverlap(player, stars);
          stars := RemoveAt(stars, i);
          break;
        }
        i := i + 1;
      }
      ghost var picked := AfterPickup(old(State()));
      assert State() == picked;

      var j := 0;
      while j < |obstacles|
        invariant 0 <= j <= |obstacles|
        invariant State() == picked
        invariant forall t :: 0 <= t < j ==> !Overlaps(player, obstacles[t])
      {
        if Overlaps(player, obstacles[j]) {
          assert AnyOverlap(picked.player, picked.obstacles);
          gameOver := true;
          win := false;
          lostDueToObstacle := true;
          return;
        }
        j := j + 1;
      }

      if |stars| == 0 {
        win := true;
        gameOver := true;
      }
    }

    method UpdateTime(deltaTime: real)
      modifies this
      ensures State() == AfterTime(old(State()), deltaTime)
    {
      if gameOver {
        return;
      }
      timeLeft := timeLeft - deltaTime;
      if timeLeft <= 0.0 {
        timeLeft := 0.0;
        gameOver := true;
        win := false;
      }
    }
  }
}
