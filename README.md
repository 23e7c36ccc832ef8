# Triangle collection game: the game model and its frame loop

This project models the logic of a small WebGL 2D game in Dafny. The
player steers an orange triangle with the arrow keys. The goal is to
collect ten coloured triangles ("stars") within 60 seconds while avoiding
five star-shaped obstacles.

- `geometry.dfy` (module `Geometry`) holds the circles every game object
  is and the overlap test shared by placement and collision.
- `sequences.dfy` (module `Sequences`) holds the sequence facts used by the
  pickup: `splice(k, 1)` and "is an order-preserving subsequence of".
- `model.dfy` (module `GameModel`) holds class `Model` of `model.js`.
  - Construction takes random draws as inputs, places stars, then
    obstacles, then the player, with rejection sampling.
  - `updatePlayerPosition` clamps each axis to the board.
  - `checkCollisions` picks up at most one star, and an obstacle hit takes
    precedence over the win check.
  - `updateTime` counts down and clamps at zero.
- `controller.dfy` (module `GameController`) holds class `Controller` of
  `controller.js`: the key map, one tick of the frame loop, and the message
  shown when the game ends.

Each per-tick method is specified by a pure function of the game state
(`AfterMove`, `AfterCollisions`, `AfterTime`, `AfterInput`, `Frame`), all
defined on a `GameState` value: its `ensures` states that the object's new
`State()` is that function of its old state. The construction methods are
specified by the circles their draws place (`PlacedAll`, `FirstLanding`),
and the key handlers by the map update they make. The game's
promises are then proved about those functions:
- clamp bounds;
- the first overlapping star is the one removed;
- obstacle precedence;
- a finished game is frozen;
- coherence of the outcome flags over any run of steps;
- the order of a tick.

`Math.hypot(dx, dy) < r` is modelled as `dx² + dy² < r²`.
`Geometry.HypotComparison` proves that the two agree whenever `r > 0`,
which holds for every size in the game. Coordinates, sizes and time are
`real`.

## Model

| member | source | states |
|---|---|---|
| Geometry.HypotComparison | model.js:43 | for a radius sum r > 0, hypot(dx, dy) < r holds exactly when dx² + dy² < r², so the squared test used throughout decides the same as the game's |
| Geometry.CheckClear | model.js:42-47 | the inner scan of a placement try reports safe exactly when the candidate touches none of the circles |
| Geometry.FirstOverlap | model.js:125-131 | the index the star loop stops at: no star before it overlaps the player, the star at it does, and it equals the length exactly when no star overlaps |
| Sequences.RemoveAt | model.js:128 | `splice(k, 1)` removes exactly the element at k: one shorter, elements before k unchanged, later ones shifted down by one, same multiset minus that element |
| Sequences.RemoveAtEmbeds | model.js:128 | what is left after the splice is a subsequence of the original: the remaining stars keep their relative order |
| Sequences.EmbedsTransitive | model.js:125-131 | being an order-preserving subsequence is transitive, which lets the one-pickup fact chain over many pickups |
| GameModel.SpreadRange | model.js:38-39 | a draw u in [0, 1) is spread to `u * (2 - 2m) - (1 - m)`, which lies in [-1 + m, 1 - m) |
| GameModel.ColorIndex | model.js:54 | `Math.floor(Math.random() * colors.length)` is a valid index into the five colours |
| GameModel.FirstLanding | model.js:37-48 | the try a retry loop stops on is a try clear of every circle it is tested against, and every earlier try touched one |
| GameModel.SampleUntilSafe | model.js:37-48 | the `while (!safe)` loop returns the position of the first landing try, and that position is clear of every circle it was tested against |
| GameModel.PlacedAll | model.js:34-56 | a creation loop pushes one circle per item, each of the item size and clear of the circles it was tested against |
| GameModel.PlacedAvoids | model.js:66-73 | no placed item overlaps any circle it was placed clear of: every obstacle is apart from every star |
| GameModel.PlacedInRange | model.js:38-39 | every placed star lies in [-0.95, 0.95) and every obstacle in [-0.9, 0.9) on each axis |
| GameModel.ClampAxis | model.js:108-118 | the boundary check on one axis: with half size at most 1 the result lies in [-1 + half, 1 - half]; inside that range the value is kept; below it snaps to the low edge, above it to the high edge |
| GameModel.AfterPickup | model.js:125-131 | with no overlapping star nothing changes; otherwise exactly the lowest-index overlapping star is removed, and nothing but the stars changes |
| GameModel.AfterCollisions | model.js:123-147 | the player, obstacles and timer are unchanged; at most one star is removed; an obstacle hit sets gameOver, clears win and sets lostDueToObstacle; with no hit, the game ends as won exactly when no star is left |
| GameModel.AfterTime | model.js:149-158 | a finished game is unchanged; otherwise the timer drops by d, and when it reaches zero it is set to exactly 0 and the game ends as not won; lostDueToObstacle and everything but the timer and flags are untouched |
| GameModel.MoveStaysOnBoard | model.js:108-118 | after a move of the 0.1-size player each coordinate lies in [-0.95, 0.95], each axis clamped independently |
| GameModel.MoveIsExact | model.js:105-118 | on each axis on its own, a move whose target keeps the player's edges inside [-1, 1] moves it by exactly dx (or dy), whatever the other axis does; the size is kept |
| GameModel.FrozenWhenOver | model.js:102 | once the game is over, a move and a timer update both leave the whole state unchanged |
| GameModel.MoveKeepsObstacles | model.js:120-141 | a move never changes the obstacles or the timer, and leaves the stars a subsequence of what they were with at most one fewer |
| GameModel.StepsKeepCoherent | model.js:134-157 | a move and a timer update keep the flags coherent: a running game has time and stars left and no outcome, a won game has no stars and no obstacle loss, a lost game with no obstacle flag has timer 0 and stars left |
| GameModel.RunAppend | controller.js:59-60 | running two lists of steps in turn is running their concatenation |
| GameModel.RunFrozen | model.js:102 | a finished game is unchanged by any sequence of moves and timer updates |
| GameModel.RunInvariant | model.js:123-158 | over any run the state stays coherent, a finished game stays finished, the obstacles never change, and the stars left are the original ones with some removed, in their original order |
| GameModel.ClearedMeansWon | model.js:143-146 | over any run from a coherent state, once every star is collected and no obstacle was hit, the game is over and won: neither a timeout nor anything else can come first |
| GameModel.RunOnBoard | model.js:108-118 | once the player is on the board it stays there for any run of steps |
| GameModel.Model.constructor | model.js:11-31 | ten stars, then five obstacles clear of every star, then the player clear of every obstacle; stars in [-0.95, 0.95), obstacles in [-0.9, 0.9), player in [-1, 1); 60 s on the clock, no outcome; the state is coherent |
| GameModel.Model.CreateStars | model.js:33-57 | the stars array is extended by the circles the draws place, each clear of the obstacles present |
| GameModel.Model.CreateObstacles | model.js:59-83 | the obstacles array is extended by the circles the draws place, each clear of the stars |
| GameModel.Model.PlacePlayerSafely | model.js:85-99 | the player moves to the first try, drawn over the whole board, that is clear of every obstacle |
| GameModel.Model.UpdatePlayerPosition | model.js:101-121 | the new state is AfterMove of the old: nothing once over, otherwise clamp each axis then check collisions |
| GameModel.Model.CheckCollisions | model.js:123-147 | the new state is AfterCollisions of the old |
| GameModel.Model.UpdateTime | model.js:149-158 | the new state is AfterTime of the old |
| GameController.HeldArrows | controller.js:77-80 | an arrow is acted on exactly when its key is held; each at most once, in the order Up, Down, Left, Right; at most four |
| GameController.RunMovesSnoc | controller.js:77-80 | a held arrow appended to the acted-on list appends its move to the run, and an unheld one changes nothing |
| GameController.InputIsRun | controller.js:74-81 | handleInput's four tests move the game exactly as running the held arrows' moves in order |
| GameController.NudgeStep | controller.js:77-80 | one arrow test never revives a finished game, keeps the player's size, changes nothing when its key is not held, and away from the edges moves by exactly its (dx, dy) |
| GameController.InputDisplacement | controller.js:75-80 | away from the edges, the held arrows of a tick that leaves the game running add up to ((Right − Left) · 0.01, (Up − Down) · 0.01): opposite keys cancel and a diagonal is not normalised |
| GameController.IdleInputChangesNothing | controller.js:77-80 | with no arrow key held, handleInput leaves the game unchanged |
| GameController.MessageNamesOutcome | controller.js:47-55 | for a coherent finished game the message is the win text exactly when won (and then no star is left), the obstacle text exactly when lost to an obstacle, and the time-up text exactly otherwise (and then the timer is 0 and stars are left) |
| GameController.TimeoutTickMovesNothing | controller.js:59-60 | the timer runs before the moves: on a tick where time runs out, no held key moves the player |
| GameController.IdleTickOnlyCountsDown | controller.js:59-60 | with no arrow key held a tick only runs the timer |
| GameController.TickKeepsInvariant | controller.js:41-72 | a tick keeps the game coherent, never changes the obstacles and never adds a star |
| GameController.Controller.constructor | controller.js:12-17 | the controller starts with an empty key map and last time 0 |
| GameController.Controller.KeyDown | controller.js:20 | a key-down sets that key to held, every other key keeps its entry |
| GameController.Controller.KeyUp | controller.js:21 | a key-up sets that key to released, every other key keeps its entry |
| GameController.Controller.StartGame | controller.js:37-38 | the start time is recorded, then the first tick runs |
| GameController.Controller.UpdateGame | controller.js:41-72 | lastTime becomes now; a finished game is left untouched and the tick stops with the message of its outcome; otherwise the timer runs with (now − lastTime)/1000 seconds, then the held arrows move, and the loop continues |
| GameController.Controller.HandleInput | controller.js:74-81 | the new state is AfterInput of the old: one move per held arrow key, Up, Down, Left, Right |

## Left out

- view.js is not part of this model: the WebGL context, shaders, buffers, projection and the star and triangle geometry are drawing only. So are the controller's `view` field and its `drawScene` call.
- `alert` is not modelled. The rules text shown at start is dropped, and the end-of-game message is returned as `Stop(message)` instead of being shown.
- `console.log` is not modelled: it is debugging output only.
- `requestAnimationFrame` is not modelled. Scheduling the next tick is the `Continue` result, and the exit on a finished game is `Stop`.
- `performance.now()` is not modelled: timestamps are method parameters in milliseconds.
- `window.addEventListener` is not modelled: the two listeners are the `KeyDown` and `KeyUp` methods.
- `Math.random()` is not modelled as a distribution. Its draws are inputs: a sequence of (x, y) tries per placement loop and one colour draw per star or obstacle, each in [0, 1).
- GameModel.SampleUntilSafe: requires that some supplied try lands. The star loop always lands on its first try, since stars are placed before any obstacle exists; only the obstacle and player loops (model.js:63, 87) terminate merely with probability 1, so the model does not capture a run of those that never finds a free spot. GameModel.Model.constructor requires the same of all its draws (`SetupDraws`), which for the stars asks only for at least one try each.
- IEEE floating-point rounding is not modelled: arithmetic is exact on `real`.
- `Math.hypot` is replaced by the squared comparison; Geometry.HypotComparison shows the two agree for positive radius sums.
- The colour table is the module constant `Palette`, not a field of the model, because nothing changes it.
- GameModel.Model.constructor: the player is placed over the whole board [-1, 1), not the clamped range. So `OnBoard` is not claimed at construction, only after a move (GameModel.MoveStaysOnBoard, GameModel.RunOnBoard).
- GameController.Controller.StartGame: `lastTime` holds the start time and `now` is the first tick's time. These are two separate readings of `performance.now()`, both given as parameters.
