/** The frame loop of controller.js: the held-key map, the per-tick update
    of the game and the message shown when the game ends. */
module GameController {
  import opened GameModel

  /** Distance moved per held arrow key per tick. */
  const SPEED: real := 0.01

  const WinMessage: string := "Congratulations! You collected all the triangles and won the game!"
  const ObstacleMessage: string := "Game Over! You hit an obstacle and lost the game."
  const TimeUpMessage: string := "Time's up! You didn't collect all the triangles in time."

  datatype Arrow = Up | Down | Left | Right

  /** The `event.key` name of an arrow key. */
  function KeyName(a: Arrow): string
  {
    match a
    case Up => "ArrowUp"
    case Down => "ArrowDown"
    case Left => "ArrowLeft"
    case Right => "ArrowRight"
  }

  /** Where an arrow comes in the order handleInput tests the keys. */
  function Rank(a: Arrow): nat
  {
    match a
    case Up => 0
    case Down => 1
    case Left => 2
    case Right => 3
  }

  /** The move one held arrow makes. */
  function Nudge(a: Arrow): Step
  {
    match a
    case Up => Move(0.0, SPEED)
    case Down => Move(0.0, -SPEED)
    case Left => Move(-SPEED, 0.0)
    case Right => Move(SPEED, 0.0)
  }

  /** A key is held when its entry is true; a key never pressed is not. */
  predicate Held(keys: map<string, bool>, name: string)
  {
    name in keys && keys[name]
  }

  /** The arrows handleInput acts on: each held arrow once, in the order
      Up, Down, Left, Right. */
  function HeldArrows(keys: map<string, bool>): (r: seq<Arrow>)
    ensures forall a :: a in r <==> Held(keys, KeyName(a))
    ensures forall i, j :: 0 <= i < j < |r| ==> Rank(r[i]) < Rank(r[j])
    ensures |r| <= 4
  {
    (if Held(keys, KeyName(Up)) then [Up] else []) +
    (if Held(keys, KeyName(Down)) then [Down] else []) +
    (if Held(keys, KeyName(Left)) then [Left] else []) +
    (if Held(keys, KeyName(Right)) then [Right] else [])
  }

  /** The moves of the acted-on arrows, in order. */
  function Moves(arrows: seq<Arrow>): seq<Step>
  {
    seq(|arrows|, i requires 0 <= i < |arrows| => Nudge(arrows[i]))
  }

  /** What one tick does to the game: nothing once it is over; otherwise
      the timer first, then one move per held arrow. */
  function Frame(s: GameState, keys: map<string, bool>, deltaTime: real): GameState
  {
    if s.gameOver then s else Run(s, [Elapse(deltaTime)] + Moves(HeldArrows(keys)))
  }

  /** The message for a finished game: a win, else an obstacle hit, else time up. */
  function TerminalMessage(win: bool, lostDueToObstacle: bool): string
  {
    if win then WinMessage
    else if lostDueToObstacle then ObstacleMessage
    else TimeUpMessage
  }

  /** One of handleInput's tests: move by (dx, dy) when the key is held. */
  function NudgedIf(s: GameState, held: bool, dx: real, dy: real): GameState
  {
    if held then AfterMove(s, dx, dy) else s
  }

  /** handleInput on a game state: the four arrow tests in source order. */
  function AfterInput(s: GameState, keys: map<string, bool>): GameState
  {
    var s1 := NudgedIf(s, Held(keys, KeyName(Up)), 0.0, SPEED);
    var s2 := NudgedIf(s1, Held(keys, KeyName(Down)), 0.0, -SPEED);
    var s3 := NudgedIf(s2, Held(keys, KeyName(Left)), -SPEED, 0.0);
    NudgedIf(s3, Held(keys, KeyName(Right)), SPEED, 0.0)
  }

  /** What a tick reports: keep the loop going, or stop with a message. */
  datatype TickResult = Continue | Stop(message: string)

  // ---------------------------------------------------------------------
  // Properties of a tick.
  // ---------------------------------------------------------------------

  /** In a coherent finished game, each message names the way it ended. */
  lemma MessageNamesOutcome(s: GameState)
    requires Coherent(s) && s.gameOver
    ensures var m := TerminalMessage(s.win, s.lostDueToObstacle);
      (m == WinMessage <==> s.win) &&
      (m == WinMessage ==> |s.stars| == 0) &&
      (m == ObstacleMessage <==> s.lostDueToObstacle) &&
      (m == TimeUpMessage <==> !s.win && !s.lostDueToObstacle) &&
      (m == TimeUpMessage ==> s.timeLeft == 0.0 && |s.stars| > 0)
  {
  }

  /** Appending one arrow, when it is held, to the list appends its move to the run. */
  lemma {:induction false} RunMovesSnoc(s: GameState, arrows: seq<Arrow>, a: Arrow, held: bool, dx: real, dy: real)
    requires Nudge(a) == Move(dx, dy)
    ensures Run(s, Moves(arrows + (if held then [a] else []))) == NudgedIf(Run(s, Moves(arrows)), held, dx, dy)
  {
    if held {
      assert Moves(arrows + [a]) == Moves(arrows) + [Nudge(a)];
      RunAppend(s, Moves(arrows), [Nudge(a)]);
      assert Run(Run(s, Moves(arrows)), [Nudge(a)]) == Apply(Run(s, Moves(arrows)), Nudge(a));
    } else {
      assert arrows + [] == arrows;
    }
  }

  /** handleInput's four tests move the player exactly as the run of the
      held arrows' moves, in the order Up, Down, Left, Right. */
  lemma InputIsRun(s: GameState, keys: map<string, bool>)
    ensures AfterInput(s, keys) == Run(s, Moves(HeldArrows(keys)))
  {
    var d0: seq<Arrow> := [];
    var d1 := if Held(keys, KeyName(Up)) then [Up] else [];
    assert d0 + d1 == d1;
    var d2 := d1 + (if Held(keys, KeyName(Down)) then [Down] else []);
    var d3 := d2 + (if Held(keys, KeyName(Left)) then [Left] else []);
    var d4 := d3 + (if Held(keys, KeyName(Right)) then [Right] else []);
    assert Run(s, Moves(d0)) == s;
    RunMovesSnoc(s, d0, Up, Held(keys, KeyName(Up)), 0.0, SPEED);
    RunMovesSnoc(s, d1, Down, Held(keys, KeyName(Down)), 0.0, -SPEED);
    RunMovesSnoc(s, d2, Left, Held(keys, KeyName(Left)), -SPEED, 0.0);
    RunMovesSnoc(s, d3, Right, Held(keys, KeyName(Right)), SPEED, 0.0);
    assert d4 == HeldArrows(keys);
  }

  /** With no arrow key held handleInput leaves the game as it is. */
  lemma IdleInputChangesNothing(s: GameState, keys: map<string, bool>)
    requires forall a: Arrow :: !Held(keys, KeyName(a))
    ensures AfterInput(s, keys) == s
  {
  }

  /** 1 when the arrow's key is held, else 0. */
  function Pressed(keys: map<string, bool>, a: Arrow): real
  {
    if Held(keys, KeyName(a)) then 1.0 else 0.0
  }

  /** One of handleInput's tests never revives a finished game, keeps the
      player's size, and away from the edges moves by exactly (dx, dy). */
  lemma NudgeStep(u: GameState, held: bool, dx: real, dy: real)
    requires u.player.size == PLAYER_SIZE
    ensures var v := NudgedIf(u, held, dx, dy);
      v.player.size == PLAYER_SIZE && (!v.gameOver ==> !u.gameOver) &&
      (!held ==> v == u) &&
      (held && !u.gameOver && -0.95 <= u.player.x + dx <= 0.95 ==> v.player.x == u.player.x + dx) &&
      (held && !u.gameOver && -0.95 <= u.player.y + dy <= 0.95 ==> v.player.y == u.player.y + dy)
  {
    if held && !u.gameOver {
      MoveIsExact(u, dx, dy);
    }
  }

  /** Away from the edges, the held arrows of a tick that leaves the game
      running add up: the player moves by ((Right - Left) * 0.01,
      (Up - Down) * 0.01), so opposite keys cancel and a diagonal is not
      normalised. */
  lemma InputDisplacement(s: GameState, keys: map<string, bool>)
    requires s.player.size == PLAYER_SIZE
    requires -0.93 <= s.player.x <= 0.93 && -0.93 <= s.player.y <= 0.93
    ensures var t := AfterInput(s, keys);
      !t.gameOver ==>
        t.player.x == s.player.x + (Pressed(keys, Right) - Pressed(keys, Left)) * SPEED &&
        t.player.y == s.player.y + (Pressed(keys, Up) - Pressed(keys, Down)) * SPEED
  {
    var s1 := NudgedIf(s, Held(keys, KeyName(Up)), 0.0, SPEED);
    var s2 := NudgedIf(s1, Held(keys, KeyName(Down)), 0.0, -SPEED);
    var s3 := NudgedIf(s2, Held(keys, KeyName(Left)), -SPEED, 0.0);
    var t := NudgedIf(s3, Held(keys, KeyName(Right)), SPEED, 0.0);
    NudgeStep(s, Held(keys, KeyName(Up)), 0.0, SPEED);
    NudgeStep(s1, Held(keys, KeyName(Down)), 0.0, -SPEED);
    NudgeStep(s2, Held(keys, KeyName(Left)), -SPEED, 0.0);
    NudgeStep(s3, Held(keys, KeyName(Right)), SPEED, 0.0);
  }

  /** A tick on which the time runs out moves nothing, whatever keys are held. */
  lemma TimeoutTickMovesNothing(s: GameState, keys: map<string, bool>, deltaTime: real)
    requires !s.gameOver && AfterTime(s, deltaTime).gameOver
    ensures Frame(s, keys, deltaTime) == AfterTime(s, deltaTime)
    ensures Frame(s, keys, deltaTime).player == s.player
  {
    var moves := Moves(HeldArrows(keys));
    assert ([Elapse(deltaTime)] + moves)[1..] == moves;
    RunFrozen(AfterTime(s, deltaTime), moves);
  }

  /** With no arrow key held a tick only runs the timer. */
  lemma IdleTickOnlyCountsDown(s: GameState, keys: map<string, bool>, deltaTime: real)
    requires forall a: Arrow :: !Held(keys, KeyName(a))
    ensures Frame(s, keys, deltaTime) == AfterTime(s, deltaTime)
  {
    var r := HeldArrows(keys);
    assert !Held(keys, KeyName(Up)) && !Held(keys, KeyName(Down));
    assert !Held(keys, KeyName(Left)) && !Held(keys, KeyName(Right));
    assert r == [];
    assert [Elapse(deltaTime)] + Moves(r) == [Elapse(deltaTime)];
    assert Run(s, [Elapse(deltaTime)]) == Run(AfterTime(s, deltaTime), []);
  }

  /** A tick keeps the game coherent and its obstacles, and never adds stars. */
  lemma TickKeepsInvariant(s: GameState, keys: map<string, bool>, deltaTime: real)
    requires Coherent(s)
    ensures var t := Frame(s, keys, deltaTime);
      Coherent(t) && t.obstacles == s.obstacles && |t.stars| <= |s.stars|
  {
    if !s.gameOver {
      RunInvariant(s, [Elapse(deltaTime)] + Moves(HeldArrows(keys)));
    }
  }

  // ---------------------------------------------------------------------
  // The mutable controller.
  // ---------------------------------------------------------------------

  class Controller {
    const model: Model
    var keyPresses: map<string, bool>
    var lastTime: real

    constructor (model: Model)
      ensures this.model == model && keyPresses == map[] && lastTime == 0.0
    {
      this.model := model;
      keyPresses := map[];
      lastTime := 0.0;
    }

    method KeyDown(key: string)
      modifies this`keyPresses
      ensures keyPresses == old(keyPresses)[key := true]
    {
      keyPresses := keyPresses[key := true];
    }

    method KeyUp(key: string)
      modifies this`keyPresses
      ensures keyPresses == old(keyPresses)[key := false]
    {
      keyPresses := keyPresses[key := false];
    }

    /** Record the start time, then run the first tick at `now`. */
    method StartGame(startTime: real, now: real) returns (r: TickResult)
      modifies this`lastTime, model
      ensures lastTime == now
      ensures model.State() == Frame(old(model.State()), keyPresses, (now - startTime) / 1000.0)
      ensures r == if old(model.gameOver) then Stop(TerminalMessage(old(model.win), old(model.lostDueToObstacle)))
                   else Continue
    {
      lastTime := startTime;
      r := UpdateGame(now);
    }

    /** One tick at time `now` (milliseconds). */
    method UpdateGame(now: real) returns (r: TickResult)
      modifies this`lastTime, model
      ensures lastTime == now
      ensures model.State() == Frame(old(model.State()), keyPresses, (now - old(lastTime)) / 1000.0)
      ensures r == if old(model.gameOver) then Stop(TerminalMessage(old(model.win), old(model.lostDueToObstacle)))
                   else Continue
    {
      var currentTime := now;
      var deltaTime := (currentTime - lastTime) / 1000.0;
      lastTime := currentTime;

      if model.gameOver {
        r := Stop(TerminalMessage(model.win, model.lostDueToObstacle));
        return;
      }

      ghost var s0 := model.State();
      model.UpdateTime(deltaTime);
      HandleInput();
      InputIsRun(AfterTime(s0, deltaTime), keyPresses);
      ghost var moves := Moves(HeldArrows(keyPresses));
      assert ([Elapse(deltaTime)] + moves)[1..] == moves;
      assert Run(s0, [Elapse(deltaTime)] + moves) == Run(AfterTime(s0, deltaTime), moves);
      r := Continue;
    }

    /** One move per held arrow key, in the order Up, Down, Left, Right. */
    method HandleInput()
      modifies model
      ensures model.State() == AfterInput(old(model.State()), keyPresses)
    {
      ghost var s0 := model.State();
      if Held(keyPresses, KeyName(Up)) {
        model.UpdatePlayerPosition(0.0, SPEED);
      }
      ghost var s1 := NudgedIf(s0, Held(keyPresses, KeyName(Up)), 0.0, SPEED);
      assert model.State() == s1;
      if Held(keyPresses, KeyName(Down)) {
        model.UpdatePlayerPosition(0.0, -SPEED);
      }
      ghost var s2 := NudgedIf(s1, Held(keyPresses, KeyName(Down)), 0.0, -SPEED);
      assert model.State() == s2;
      if Held(keyPresses, KeyName(Left)) {
        model.UpdatePlayerPosition(-SPEED, 0.0);
      }
      ghost var s3 := NudgedIf(s2, Held(keyPresses, KeyName(Left)), -SPEED, 0.0);
      assert model.State() == s3;
      if Held(keyPresses, KeyName(Right)) {
        model.UpdatePlayerPosition(SPEED, 0.0);
      }
    }
  }
}
