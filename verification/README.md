# Ladybug game rules in Dafny

A model of the rules of a small browser arcade game (`game.js`). The player
steers a ladybug across a canvas and collects flowers while avoiding rocks.
Every collected flower is worth 10 points. The level goes up when the board
is empty. Touching a rock ends the run: the best score keeps the higher
value, and the game restarts at level 1.

Rendering, the DOM and the event listeners are stripped away. What remains is
a set of pure functions over an immutable `GameState` (ladybug, flowers,
rocks, score, level, best score). The canvas size and the key object are
explicit parameters.

Modules, leaf first:

- `Geometry` (`geometry.dfy`): squared distances, and the circular "closer
  than" test. The game compares `Math.hypot` distances; the model compares
  their squares, and `WithinMatchesDistance` shows the two tests agree.
- `Input` (`input.dfy`): the key object as `map<string, bool>`. A name that
  was never written is `undefined`, which is falsy.
- `Entities` (`entities.dfy`): the ladybug, flower and rock records; the
  ladybug step with edge teleport; both hit tests; the rock's bounce step.
- `Placement` (`placement.dfy`): the rejection test `IsOverlapping`, and the
  level set-up `InitGame`. `Math.random()` is a finite supply of draws in
  [0, 1), consumed in the order the game draws them. Each `do … while` loop
  takes candidates from the supply until one passes. The result is `None`
  if the supply runs out first.
- `Game` (`game.dfy`): the frame. It moves the ladybug, then every rock.
  Then come flower collection, the collision pass and the level-clear check.
- `FrameProperties` (`frame_properties.dfy`): what one frame guarantees. This
  covers the outcome with and without a collision, an invariant of every
  reachable state, and the containment of bouncing rocks.

Points of the code that the model keeps on purpose:

- The collision pass walks the rock list taken when the pass began. After a
  game over, `initGame` replaces the ladybug and the rocks. The remaining
  old rocks are then tested against the new ladybug at (100, 100), and
  another hit sets up yet another board. `ResolveCollisions` does the same.
- Rocks move only while the key object has at least one entry. An entry set
  to `false` by a key release still counts.
- Flowers are placed against the rock list, but that list was emptied just
  before, so the first candidate is always accepted. Flowers may overlap each
  other (`FlowersTakeFirstDraws`, `FlowersMayCoincide`).
- The flower spawn range is `Math.random() * (width - 50) + 50`, that is
  [50, width]. It is not [25, width - 25].
- After level L is cleared, the new board has `3 + (L + 1) - 1` rocks. So
  clearing level 1 gives 4 rocks, not 3, which is the rule the code applies.

## Model

| member | source | states |
|---|---|---|
| `Input.Held` | game.js:54-57 | A direction (`UpHeld`, `DownHeld`, `LeftHeld`, `RightHeld`) is held exactly when either alias, the arrow key or the button name, is set to true. Names that are absent or set to `false` by a release do not hold it. A held direction needs one of its two names in the key object, so the object then has an entry. |
| `Input.HasEntries` | game.js:133 | The rock gate's key count is positive iff some name is present in the key object, whatever its value. |
| `Entities.Steer` | game.js:53-57 | Each held direction moves its axis by exactly 5. Up held alone lowers y by 5, down alone raises it by 5, and holding both or neither leaves y unchanged. The same holds for left and right on x. |
| `Entities.Wrap` | game.js:59-70 | With a non-negative extent the result lies in [0, extent]. Below 0 lands exactly on the far edge, past the far edge lands on 0, and a value in range is kept. |
| `Entities.MoveLadybug` | game.js:53-70 | After one step the ladybug lies in [0, width] x [0, height] for every start position and every non-negative canvas size. Each axis is the wrapped steered coordinate. |
| `Entities.WrapIdempotent` | game.js:59-70 | A second wrap leaves a wrapped coordinate where it is. |
| `Entities.IdleLadybugStays` | game.js:53-70 | With no direction held, the ladybug is unchanged exactly when it already lies inside the canvas. |
| `Entities.IsCollected` | game.js:94-97 | The circular pickup test lies between two boxes. A pickup needs a separation below 50 on each axis. A separation below 35 on both axes is always a pickup. |
| `Entities.CollectedIffCloserThan50` | game.js:94-97 | The pickup test holds iff the Euclidean distance between the centres is below 50 (flower size 50 / 2 + 25). Swapping the two centres gives the same answer. |
| `Entities.IsColliding` | game.js:122-129 | The strict four-sided box test holds iff the separation is below 45 (25 + 40 / 2) on both axes. |
| `Entities.MoveObstacle` | game.js:131-141 | Below level 3, or with an empty key object, the rock is unchanged. Otherwise its velocity is added to its position. A component is negated exactly when its axis left [0, width] or [0, height], and the position is not pulled back. Speed magnitudes are always kept. |
| `Entities.ReleasedKeyStillMovesObstacle` | game.js:131-141 | A key object whose only entry is a released key (`up: false`) still moves rocks at level 3, and a rock can be carried to x = -0.5 outside the canvas. |
| `Entities.MoveObstacleKeepsContained` | game.js:131-141 | On a canvas of fixed size, a rock whose every axis is in range or one step from it keeps that property after a step, and its speeds stay in [-1, 1]. |
| `Entities.ContainedIsNearCanvas` | game.js:131-141 | A contained rock is never more than one unit outside the canvas. |
| `Geometry.WithinMatchesDistance` | game.js:145-150 | The squared-distance test agrees with "Euclidean distance < reach" for every pair of centres and every reach. |
| `Geometry.WithinSymmetric` | game.js:145-150 | The closeness test does not depend on which centre comes first. |
| `Placement.IsOverlapping` | game.js:145-150 | True iff some item's centre is closer than the sum of the two half-sizes. It is false for an empty item list. |
| `Placement.Scale` | game.js:162-163 | A draw in [0, 1) with a margin no larger than the extent gives a coordinate in [margin, extent]. |
| `Placement.Velocity` | game.js:108-109 | A draw in [0, 1) gives a velocity component in [-1, 1). |
| `Placement.PlaceFlower` | game.js:159-166 | An accepted flower overlaps no rock, and it lies in [50, width] x [50, height] for genuine draws on a canvas at least 50 wide and high. With no rocks, the first candidate is taken and exactly two draws are consumed. |
| `Placement.PlaceFlowers` | game.js:158-166 | Exactly n flowers are placed (none for n <= 0). Each is clear of the rocks and inside the spawn area. |
| `Placement.ObstacleRejected` | game.js:175-180 | A rejected rock point is closer than 45 on both axes to some flower or to the ladybug. A point closer than 31 on both axes to the ladybug is always rejected. |
| `Placement.AcceptedIffClear` | game.js:175-180 | A rock point passes the rejection test iff it keeps a distance of at least 45 from every flower and from the ladybug's spawn circle. |
| `Placement.PlaceObstacle` | game.js:170-181 | An accepted rock passes the rejection test and lies in [40, width] x [40, height]. Its two velocity components, drawn after acceptance, lie in [-1, 1). |
| `Placement.ObstacleTakesDraws` | game.js:173-181 | A rejected candidate costs exactly its two draws, and the loop starts over on the rest of the supply. An accepted candidate becomes the rock with position from draws 0 and 1 and velocity from draws 2 and 3 (the constructor at game.js:108-109). The supply continues after draw 3. |
| `Placement.PlaceObstacles` | game.js:168-182 | Exactly n rocks are placed (none for n <= 0). Each passes the rejection test and is inside the spawn area. |
| `Placement.InitGame` | game.js:153-183 | A board has the ladybug at (100, 100), exactly 5 flowers and exactly `3 + level - 1` rocks (none if that is not positive). Every rock is at least 45 from every flower and from the spawn point. All positions lie inside their spawn areas for genuine draws. |
| `Placement.FlowersTakeFirstDraws` | game.js:159-166 | With the rock list empty, flower i is built from draws 2i and 2i + 1, and the first 2n draws are consumed. |
| `Placement.FlowersMayCoincide` | game.js:159-166 | Flowers are not checked against each other: equal draws put two flowers on the same spot. |
| `Game.Collect` | game.js:199-206 | No survivor is touched by the ladybug, and there are never more survivors than flowers. The score rises by exactly 10 per flower removed. That every uncollected flower survives, with its multiplicity, is stated by `CollectKeepsExactlyUncollected`. |
| `Game.CollectKeepsExactlyUncollected` | game.js:199-206 | The survivors hold every uncollected flower with its multiplicity, and no collected flower. |
| `Game.CollectKeepsOrder` | game.js:199-206 | Filtering a concatenation gives the concatenation of the filtered parts, whatever the running scores, so survivors keep their original order. |
| `Game.CollectKeptDoesNotDependOnScore` | game.js:199-206 | Which flowers survive does not depend on the running score. |
| `Game.CollectAgainIsIdentity` | game.js:199-206 | Filtering the survivors again removes nothing and adds nothing to the score. |
| `Game.GameOver` | game.js:210-219 | After a game over, the best score is the larger of the old best and the score. The run restarts at level 1 with score 0, the ladybug at spawn, 5 flowers and 3 rocks. |
| `Game.ResolveCollisions` | game.js:208-220 | With no rock overlapping the ladybug, the state is unchanged and no draw is consumed. With a hit, the result is a fresh level-1 run, and for a non-negative score the best score is the larger of the old best and the score. The best score never decreases. |
| `Game.LevelClear` | game.js:222-227 | With a flower left, nothing changes. With none, the level rises by exactly 1, score and best score are kept, and a board with 5 flowers and `3 + level - 1` rocks for the new level is set up. |
| `Game.MoveObstacles` | game.js:243 | Every rock of the list takes its `Obstacle.move` step (game.js:131-141), with the level read at the start of the frame. The list keeps its length. Below level 3 or with an empty key object, no rock moves. Every rock that is contained (see `MoveObstacleKeepsContained`) is still contained after its step. |
| `Game.Advance` | game.js:241-243 | After the moves of a frame and the collection pass (game.js:199-206), the ladybug is inside a canvas of non-negative size. No surviving flower touches the moved ladybug. The score rose by exactly 10 per flower removed. The rock list keeps its length and every contained rock stays contained. Level and best score are untouched. |
| `Game.Frame` | game.js:241-244 | After one frame the best score has not decreased and at least one flower is on the board. |
| `Game.StartGame` | game.js:317-322 | The first start after page load, from the initial values at game.js:18-20, gives a fresh level-1 run with score 0 and best score 0. |
| `FrameProperties.FrameOnCollision` | game.js:209-227 | On a collision, the frame ends at level 1 with score 0, 5 flowers and 3 rocks. For a non-negative score, the best score is the larger of the old best and the score after collection. The level-clear branch cannot fire after a collision. |
| `FrameProperties.FrameWithoutCollision` | game.js:198-227 | Without a collision, the score rises by exactly 10 per collected flower and the best score is kept. The level rises by exactly 1 iff no flower survives. Otherwise the state is the moved one with the survivors in place. |
| `FrameProperties.StartIsValid` | game.js:317-322 | The state after the start action satisfies the session invariant. |
| `FrameProperties.FramePreservesValid` | game.js:186-231 | Every frame keeps the invariant. The score is a non-negative multiple of 10, the best score is non-negative and the level is at least 1. At least one and at most 5 flowers are on the board, and there are exactly `3 + level - 1` rocks. |
| `FrameProperties.QuietFramePreservesValid` | game.js:198-227 | A frame without a collision keeps the session invariant. |
| `FrameProperties.QuietStepKeepsValid` | game.js:222-227 | The bookkeeping of a quiet frame keeps the invariant. This covers collection with 10 points per flower, followed by the level clear when the board is empty. |
| `FrameProperties.FreshBoardContained` | game.js:168-182 | Every rock of a newly set-up board is contained, given genuine draws on a canvas at least 50 wide and high. |
| `FrameProperties.ResolveKeepsRocksContained` | game.js:209-220 | The collision pass keeps every rock contained. |
| `FrameProperties.FrameKeepsRocksContained` | game.js:131-141 | While the canvas keeps its size, no frame lets a rock escape by more than one step. |
| `FrameProperties.LevelClearKeepsRocksContained` | game.js:222-227 | The level-clear check leaves every rock contained. |

## Left out

- Canvas and context set-up, `resizeCanvas` and the `borders` object (written but never read). Width and height are parameters that stay fixed within a frame. Resizing between frames is possible, but the containment lemmas assume a fixed size.
- All drawing: the `draw` methods, image loading and `clearRect`. The image size fields are constants (`LadybugSize`, `FlowerSize`, `ObstacleSize`).
- `alert`, `updateScore` and the DOM text updates. They are notifications only and change no game state. The level-cleared message is shown after the level has already been incremented, so it names the new level; the model does not cover that text.
- Clicking the start button again while a game runs (game.js:318-322). The listener is never removed, so a second click would call `initGame()` at the current level, keep the score and best score, and start a second `gameLoop` chain that runs its own frames. `StartGame` models only the first click after page load.
- `requestAnimationFrame` and the endless `gameLoop`. `Frame` is one iteration of the loop.
- The keyboard, button, blur and focus listeners (game.js:249-322). The resulting key object is an input to `Frame`.
- `Math.random()` and the unbounded retry loops. Draws come from a finite supply, and running out yields `None`. Whether the original loops terminate is not modelled.
- IEEE-754 numbers and `Math.hypot` rounding. Coordinates and speeds are exact reals, and distances are compared squared.
- `game copy.js`, an older variant with clamping instead of wrap-around, flower size 30, rocks that move without a key gate, and no best score. It is context only, not part of this model.
