# Brick breaker simulation core in Dafny

This project models the simulation core of `brickbreaker.js`, a browser brick
breaker game, with the page replaced by explicit state:

- the level catalog (three fixed grids of cell values 0 to 3);
- the brick layout builder (`buildBricks` / `createBrick`), with its
  160×60 cells, its wrap test on x alone and its sticky skip flag;
- the brick collision resolver (`checkBrickCollisions`), with the win check
  before the scan, the scan in insertion order that stops at the first brick
  of any kind the ball touches, and the per-kind transition table;
- the per-frame kinematics (`positionBall`, `positionPlatform`) with the
  predicates `isIntersecting`, `shouldReverseX` and `shouldReverseY`;
- the session lifecycle (`start`, `reset`, `gameOver`, `moveToNextLevel`,
  `doAnimate`) and the key handlers, reduced to launch and movement intent.

Two layers describe the same behaviour:

- `session.dfy` (module `Session`) states each operation as a function from
  the state before to the state after, on a `State` value. The properties
  are proved about these functions in `properties.dfy`, `layout.dfy`,
  `collisions.dfy`, `bricks.dfy`, `levels.dfy` and `geometry.dfy`.
- `game.dfy` (module `BrickBreaker`) holds the class `Game`. Its fields are
  the source's module-level variables plus the ball, the platform and the
  brick list. Its methods update those fields in place, with the loops of the
  source. Every method except `CreateBrick`, `LayCell` and `BuildBricks` is
  proved to leave `Snapshot()` (the fields as a `State`) equal to the
  matching `Session` function applied to the old state. Those three state
  the new brick list and counter against `NewBrick` and `Built`, and change
  nothing else. `Animate`, `OnKeydown` and `OnKeyup` also keep the session
  invariant.

The session invariant (`Session.Inv`) has three parts:

- the level indexes the catalog;
- `bricksActive` equals the number of normal and strong bricks in the list;
- only strong bricks carry the hit flag.

Positions and speeds are `real`, because the platform deflection divides by
10. The ball size, platform width, platform top and height, and brick size
are parameters (`Config`), although the source hard-codes 12 and 160 for the
first two.

In these places the model follows the code, where a reader of the game's
own comments and messages might expect otherwise:

- The platform is not clamped to the arena, although the comment at
  brickbreaker.js:382 says it should not go past the screen boundaries. Each
  move is only guarded by the position before that move
  (brickbreaker.js:622-631).
- The deflection is measured from the ball's left edge, not its centre
  (brickbreaker.js:672-676).
- A game over (brickbreaker.js:384) does not end the frame. The horizontal
  wall check, the platform check, the brick scan and the move still run on
  the reset state (brickbreaker.js:659-687).
- Clearing a level does not rebuild the next level's bricks. It clears them
  and waits for space, as the round-won message at brickbreaker.js:31 asks,
  and `start` builds the level then (brickbreaker.js:187-205, 141-155).

## Model

| member | source | states |
|---|---|---|
| Geometry.IntersectsSymmetric | brickbreaker.js:317-325 | isIntersecting gives the same answer with its arguments swapped |
| Geometry.Intersects | brickbreaker.js:317-325 | definition of isIntersecting; properties in IntersectsSymmetric, TouchingIntersects and IntersectsIffCommonPoint |
| Geometry.TouchingIntersects | brickbreaker.js:321-322 | the intervals are closed: boxes whose sides touch on one axis while their extents overlap on the other (a shared edge, part of one, or a corner) intersect |
| Geometry.IntersectsIffCommonPoint | brickbreaker.js:317-325 | on well-formed boxes the test holds exactly when the two closed boxes share a point, in both directions |
| Levels.Catalog | brickbreaker.js:45-71 | definition of the level grids; properties in CatalogShape, StartingLevelFlat and StartingLevelValues |
| Levels.Flatten | brickbreaker.js:240-243 | definition of the order in which the loops visit the cells; properties in FlattenRowMajor and StartingLevelFlat |
| Levels.CatalogShape | brickbreaker.js:45-71 | three levels of 4, 5 and 5 rows, every row eight cells, every cell from 0 to 3 |
| Levels.FlattenRowMajor | brickbreaker.js:240-243 | the two nested loops visit cells in row-major order: with rows of eight, cell c of row r is visited (8r + c)-th, and all 8 × rows cells are visited |
| Levels.CountActiveValuesAppend | brickbreaker.js:285-294 | the number of cells holding 1 or 2 adds up over a concatenation |
| Levels.StartingLevelFlat | brickbreaker.js:47-52 | the starting level, visited row by row, is its four rows joined |
| Levels.StartingLevelRowCounts | brickbreaker.js:47-52 | the starting level's cells hold 20 values of 1 or 2 |
| Levels.StartingLevelValues | brickbreaker.js:47-52 | the starting level has 32 cells, 20 of them holding 1 or 2 |
| Bricks.KindOf | brickbreaker.js:280-300 | a cell value makes a brick exactly when it is 0 to 3, and an active one exactly when it is 1 or 2 |
| Bricks.NewBrick | brickbreaker.js:276-301 | createBrick adds at most one unhit brick at the given position; it adds one exactly for values 0 to 3, and it adds to the count exactly for 1 and 2 |
| Bricks.ActiveCount | brickbreaker.js:285-294 | definition of the number of normal and strong bricks, the quantity bricksActive tracks; properties in ActiveCountAppend, CountSplit, RemoveCount and ReplaceCount |
| Bricks.ActiveCountAppend | brickbreaker.js:93 | the count of active bricks adds up over a concatenation of lists |
| Bricks.Remove | brickbreaker.js:481-493 | removeChild drops brick i and keeps the order of the others |
| Bricks.CountSplit | brickbreaker.js:93 | the count of a list is the count before brick i, brick i's own, and the count after it |
| Bricks.RemoveCount | brickbreaker.js:481-493 | removing a brick lowers the count of active bricks by one exactly when it was active |
| Bricks.ReplaceCount | brickbreaker.js:479 | replacing a brick by one that is equally active (marking it hit) leaves the count alone |
| Layout.Kept | brickbreaker.js:246-255 | the number of laid-out cells never exceeds the number of cells |
| Layout.StartX | brickbreaker.js:233-236 | definition of the first column, (width mod 160) / 2, also used by the wrap at 249; properties in CursorAfterOk and BuiltOnGrid |
| Layout.Origin | brickbreaker.js:233-238 | definition of the starting cursor at (StartX, 60) with skip off; properties in CursorAfterOk, CursorDepth and BuiltOnGrid |
| Layout.Wrap | brickbreaker.js:244-250 | definition of the wrap check; properties in WrapOk, DroppedStaysDropped and CursorDepth |
| Layout.Place | brickbreaker.js:252-253 | definition of the placement of one cell; properties in PlaceCount, BuiltKinds and BuiltUnhit |
| Layout.Advance | brickbreaker.js:252-255 | definition of the move one cell right; properties in AdvanceOk |
| Layout.CursorAfter | brickbreaker.js:233-256 | definition of the cursor after a run of cells; properties in CursorAfterOk, CursorDepth and NoDropWhenTall |
| Layout.Built | brickbreaker.js:231-257 | definition of the bricks a run of cells lays out; properties in BuiltKinds, BuildCount, BuiltUnhit, BuiltOnGrid and KeptIsPrefix |
| Layout.Step | brickbreaker.js:243-255 | proof helper: Built and CursorAfter of one more cell unfold into wrap, place and advance |
| Layout.AppendCell | brickbreaker.js:243-255 | the builder's list and count grow by exactly what the next cell places |
| Layout.NextCell | brickbreaker.js:242-243 | proof helper for the loops of BrickBreaker.Game.BuildBricks: the visited cells plus row[j] are the visited cells of row[..j + 1] |
| Layout.PrefixDropped | brickbreaker.js:244-252 | whether cell i is dropped depends only on the cells before it |
| Layout.DroppedStaysDropped | brickbreaker.js:238-248 | the skip flag is sticky: after a dropped cell, every later cell is dropped |
| Layout.DroppedAfterPlaced | brickbreaker.js:246-255 | every dropped cell comes after every laid-out cell in row-major order |
| Layout.KeptIsPrefix | brickbreaker.js:246-255 | the laid-out cells are exactly the first Kept cells, and all the rest are dropped |
| Layout.LastKeptKeepsAll | brickbreaker.js:246-255 | when the last cell is laid out, every cell before it is too |
| Layout.BuiltKinds | brickbreaker.js:231-301 | buildBricks appends one brick per laid-out cell holding 0 to 3, of that cell's kind and in cell order; other values and dropped cells append nothing |
| Layout.BuildCount | brickbreaker.js:231-301 | the count buildBricks adds is the number of laid-out cells holding 1 or 2 |
| Layout.PlaceCount | brickbreaker.js:252-255 | a laid-out cell adds to the count as its value says; a dropped one adds nothing |
| Layout.BuiltUnhit | brickbreaker.js:276-301 | freshly built bricks carry no hit flag |
| Layout.WrapOk | brickbreaker.js:244-250 | the wrap check keeps the cursor on the grid, and below the first row it only passes height / 2 when skipping |
| Layout.AdvanceOk | brickbreaker.js:252-255 | moving one cell right keeps the cursor on the grid |
| Layout.CursorAfterOk | brickbreaker.js:233-256 | after any number of cells the cursor is on the grid |
| Layout.BuiltOnGrid | brickbreaker.js:233-256 | every built brick has x = (width mod 160) / 2 + 160k and y = 60 + 60m, and a brick below the first row has y at most height / 2 |
| Layout.CursorDepth | brickbreaker.js:244-248 | the cursor drops at most one row per visited cell, so in a tall arena nothing is skipped |
| Layout.NoDropWhenTall | brickbreaker.js:244-255 | in an arena tall enough for one row per cell, every cell is laid out |
| Layout.StartingLevelBuild | brickbreaker.js:231-301 | in such an arena the starting level lays out all 32 cells, 20 of them active |
| Collisions.ShouldReverseX | brickbreaker.js:337-351 | definition of shouldReverseX; properties in InsideArenaNoReverse |
| Collisions.ShouldReverseY | brickbreaker.js:363-377 | definition of shouldReverseY; properties in InsideArenaNoReverse |
| Collisions.InsideArenaNoReverse | brickbreaker.js:337-377 | the ball reverses on neither wall exactly when its box lies inside the arena, in both directions |
| Collisions.FirstHit | brickbreaker.js:457-495 | the scan finds the first brick in list order that the ball touches, of any kind; none exactly when no brick is touched |
| Collisions.FirstHitUnique | brickbreaker.js:457-495 | a touched brick with no touched brick before it is the one the scan stops at |
| Session.Initial | brickbreaker.js:74-119 | definition of the state as loaded; properties in InitialInv |
| Session.Inv | brickbreaker.js:93-93 | definition of the session invariant: the level indexes the catalog, bricksActive is ActiveCount of the list, only strong bricks are hit; kept by InitialInv, ResetInv, StartInv, CheckBricksInv, TickInv, KeyDownInv and KeyUpInv |
| Session.Reset | brickbreaker.js:164-180 | definition of reset; properties in ResetInv and GameOverResets |
| Session.GameOver | brickbreaker.js:182-185 | definition of gameOver; properties in GameOverResets |
| Session.LevelUp | brickbreaker.js:196-198 | definition of the speed-up on a cleared level; properties in NextLevelOther and LevelUpCanSlow |
| Session.NextLevel | brickbreaker.js:187-205 | definition of moveToNextLevel; properties in NextLevelInv, NextLevelAfterLast, NextLevelOther and LevelUpCanSlow |
| Session.Launch | brickbreaker.js:141-148 | definition of the first half of start; properties in SpaceStarts |
| Session.BuildBricks | brickbreaker.js:231-257 | definition of buildBricks on the session state; properties in BuildBricksInv and StartingLevelCount |
| Session.Start | brickbreaker.js:141-155 | definition of start; properties in StartInv and SpaceStarts |
| Session.WinCheck | brickbreaker.js:453-455 | definition of the win check; properties in WinCheckFirst and CheckBricksInv |
| Session.Scan | brickbreaker.js:457-495 | definition of the brick scan; properties in ScanInv, ScanMiss, ScanEmpty, ScanNormal, ScanStrongFresh, ScanStrongHit, ScanInvuln and ScanKeepsHorizontal |
| Session.CheckBricks | brickbreaker.js:452-495 | definition of checkBrickCollisions; properties in CheckBricksInv, CheckBricksNothingElse, WinCheckFirst and ClearedActedOnNextCheck |
| Session.Hit | brickbreaker.js:475-494 | definition of the effect on the touched brick; properties in HitInv |
| Session.BounceY | brickbreaker.js:659-665 | definition of the vertical wall check; properties in WallsInv, BallLost and WallsBounce |
| Session.BounceX | brickbreaker.js:667-669 | definition of the horizontal wall check; properties in WallsInv and WallsBounce |
| Session.Walls | brickbreaker.js:659-669 | definition of the two wall checks in order; properties in WallsInv, BallLost and WallsBounce |
| Session.PlatformContact | brickbreaker.js:432-434 | definition of checkPlatformCollisions as used at 671; properties in PaddleOverrides and DeflectionRange |
| Session.Deflection | brickbreaker.js:672-676 | definition of the platform deflection; properties in DeflectionRange |
| Session.Paddle | brickbreaker.js:671-679 | definition of the platform check; properties in PaddleOverrides |
| Session.Move | brickbreaker.js:683-687 | definition of the ball move; properties in SpeedKeptBetweenEvents |
| Session.PositionBall | brickbreaker.js:653-688 | definition of positionBall; properties in TickInv, BallLost and SpeedKeptBetweenEvents |
| Session.PositionPlatform | brickbreaker.js:619-634 | definition of positionPlatform; properties in PlatformStep and PlatformGuardsAfterLeftMove |
| Session.Tick | brickbreaker.js:582-587 | definition of doAnimate; properties in TickInv and TickIdle |
| Session.KeyDown | brickbreaker.js:524-537 | definition of onKeydown; properties in KeyDownInv, SpaceStarts, SpaceWhileRunning and ArrowsSetIntent |
| Session.KeyUp | brickbreaker.js:559-565 | definition of onKeyup; properties in KeyUpInv and ArrowsSetIntent |
| Properties.InitialInv | brickbreaker.js:74-119 | the page as loaded satisfies the session invariant |
| Properties.ResetInv | brickbreaker.js:164-180 | reset empties the list and zeroes the counter, which keeps the invariant |
| Properties.BuildBricksInv | brickbreaker.js:231-301 | building a level keeps the invariant and raises the counter by the laid-out cells holding 1 or 2 |
| Properties.StartingLevelCount | brickbreaker.js:231-301 | building the starting level into an empty list in a tall arena sets the counter to 20 |
| Properties.StartInv | brickbreaker.js:141-155 | start keeps the invariant |
| Properties.ScanInv | brickbreaker.js:457-495 | the scan keeps the invariant |
| Properties.HitInv | brickbreaker.js:475-494 | the effect on the touched brick keeps the invariant, whatever its kind |
| Properties.MarkKeepsInv | brickbreaker.js:477-480 | marking a strong brick hit keeps the invariant |
| Properties.RemoveKeepsInv | brickbreaker.js:481-493 | removing an active brick and lowering the counter by one keeps the invariant |
| Properties.NextLevelInv | brickbreaker.js:187-205 | clearing a level with a zero counter keeps the invariant |
| Properties.CheckBricksInv | brickbreaker.js:452-495 | checkBrickCollisions keeps the invariant |
| Properties.WallsInv | brickbreaker.js:659-669 | the wall checks keep the invariant, a game over included |
| Properties.TickInv | brickbreaker.js:582-587 | a frame keeps the invariant |
| Properties.KeyDownInv | brickbreaker.js:524-537 | a key press keeps the invariant |
| Properties.KeyUpInv | brickbreaker.js:559-565 | a key release keeps the invariant |
| Properties.ScanMiss | brickbreaker.js:457-495 | when no brick is touched the scan changes nothing |
| Properties.ScanEmpty | brickbreaker.js:475-476 | when the first touched brick is empty the scan stops there and changes nothing |
| Properties.ScanNormal | brickbreaker.js:489-493 | a normal first touched brick is removed, the counter drops by one, the vertical speed is negated, and nothing else changes |
| Properties.ScanStrongFresh | brickbreaker.js:477-480 | an unhit strong first touched brick is marked hit in place, the count stays, the vertical speed is negated |
| Properties.ScanStrongHit | brickbreaker.js:481-485 | a strong brick already hit is removed, the counter drops by one, the vertical speed is negated |
| Properties.ScanInvuln | brickbreaker.js:486-488 | an invulnerable brick stays and only the vertical speed is negated |
| Properties.StrongTakesTwoHits | brickbreaker.js:477-485 | a strong brick hit twice in a row is removed by the second hit, the other bricks stay in order, the counter drops by one and the speeds are back to where they were |
| Properties.ScanKeepsHorizontal | brickbreaker.js:475-494 | bricks never change the horizontal or platform speed, and the vertical speed at most changes sign |
| Properties.CheckBricksNothingElse | brickbreaker.js:453-495 | with no brick touched and no win pending, checkBrickCollisions changes nothing |
| Properties.WinCheckFirst | brickbreaker.js:453-455 | a zero counter while running moves to the next level before any brick is scanned |
| Properties.ClearedActedOnNextCheck | brickbreaker.js:453-495 | a hit that zeroes the counter leaves the round running on the same level; the next check moves on |
| Properties.BallLost | brickbreaker.js:659-687 | below the bottom edge the game is lost and reset, and the rest of the frame still runs on the base speeds |
| Properties.WallsBounce | brickbreaker.js:659-669 | away from the bottom edge the walls only negate speeds: the top edge the vertical one, the sides the horizontal one |
| Properties.PaddleOverrides | brickbreaker.js:671-679 | a platform contact replaces the horizontal speed by the deflection and negates the vertical one |
| Properties.DeflectionRange | brickbreaker.js:672-676 | measured from the ball's left edge, the deflection lies between -(ballSize + platformWidth / 2) / 10 and platformWidth / 20 |
| Properties.SpeedKeptBetweenEvents | brickbreaker.js:653-688 | without a loss, a platform contact or a level change, a frame changes the speeds' signs at most |
| Properties.PlatformStep | brickbreaker.js:619-634 | the platform moves by -plat_x, 0 or +plat_x and nothing else changes; with no intent it stays; a single intent moves it exactly when its guard passes |
| Properties.PlatformGuardsAfterLeftMove | brickbreaker.js:622-631 | the right-hand guard reads the position after a left move, with no clamp |
| Properties.TickIdle | brickbreaker.js:582-587 | a frame with no round running changes nothing |
| Properties.GameOverResets | brickbreaker.js:182-185 | gameOver is reset with the lost message |
| Properties.NextLevelAfterLast | brickbreaker.js:187-195 | clearing the last level wins the game and resets it |
| Properties.NextLevelOther | brickbreaker.js:187-205 | clearing another level stops, advances the level, adds 2, 2 and 3 to the speeds, hides the ball and empties the list |
| Properties.LevelUpCanSlow | brickbreaker.js:196-198 | the speed-up adds to signed speeds, so a ball moving left faster than 1 slows down |
| Properties.SpaceStarts | brickbreaker.js:141-155 | space while idle starts the current level: running, the ball shown above the platform at 0, the level's bricks appended and counted |
| Properties.SpaceWhileRunning | brickbreaker.js:525-527 | space during a round does nothing |
| Properties.ArrowsSetIntent | brickbreaker.js:532-565 | the arrows only set and clear their own intent; other keys do nothing |
| BrickBreaker.Game.constructor | brickbreaker.js:74-134 | the page as loaded: level 0, idle, no bricks, base speeds, the start message |
| BrickBreaker.Game.Reset | brickbreaker.js:164-180 | the fields become what Session.Reset prescribes |
| BrickBreaker.Game.GameOver | brickbreaker.js:182-185 | the fields become what Session.GameOver prescribes |
| BrickBreaker.Game.MoveToNextLevel | brickbreaker.js:187-205 | the fields become what Session.NextLevel prescribes |
| BrickBreaker.Game.CreateBrick | brickbreaker.js:276-301 | the list grows by NewBrick's brick and the counter by one exactly for values 1 and 2 |
| BrickBreaker.Game.LayCell | brickbreaker.js:243-255 | one cell of the loop moves the cursor, the list and the counter as CursorAfter and Built prescribe |
| BrickBreaker.Game.BuildBricks | brickbreaker.js:231-257 | the loops append Built(Flatten(level)) to the list and its active count to the counter |
| BrickBreaker.Game.Launch | brickbreaker.js:143-148 | the message is hidden, the ball shown 40 above the platform top and 12 right of the platform, placed at 0 |
| BrickBreaker.Game.BuildCurrentLevel | brickbreaker.js:151-151 | the current level of the catalog is built |
| BrickBreaker.Game.Start | brickbreaker.js:141-155 | the fields become what Session.Start prescribes |
| BrickBreaker.Game.CheckWin | brickbreaker.js:453-455 | the fields become what Session.WinCheck prescribes |
| BrickBreaker.Game.ScanBricks | brickbreaker.js:457-495 | the loop applies Session.Scan: the first touched brick, found as FirstHit finds it, takes its hit |
| BrickBreaker.Game.HitBrick | brickbreaker.js:475-494 | the branch chain applies Session.Hit to brick i |
| BrickBreaker.Game.CheckBrickCollisions | brickbreaker.js:452-495 | the fields become what Session.CheckBricks prescribes, and the ball does not move |
| BrickBreaker.Game.PositionPlatform | brickbreaker.js:619-634 | the platform moves as Session.PositionPlatform prescribes |
| BrickBreaker.Game.CheckVerticalWall | brickbreaker.js:659-665 | the fields become what Session.BounceY prescribes |
| BrickBreaker.Game.CheckHorizontalWall | brickbreaker.js:667-669 | the fields become what Session.BounceX prescribes |
| BrickBreaker.Game.CheckPlatform | brickbreaker.js:671-679 | the fields become what Session.Paddle prescribes |
| BrickBreaker.Game.PositionBall | brickbreaker.js:653-688 | the fields become what Session.PositionBall prescribes |
| BrickBreaker.Game.MoveBall | brickbreaker.js:683-687 | the ball moves from the frame's starting position by the speeds as they are now |
| BrickBreaker.Game.Animate | brickbreaker.js:582-587 | the fields become what Session.Tick prescribes, and the invariant is kept |
| BrickBreaker.Game.OnKeydown | brickbreaker.js:524-537 | the fields become what Session.KeyDown prescribes, and the invariant is kept |
| BrickBreaker.Game.OnKeyup | brickbreaker.js:559-565 | the fields become what Session.KeyUp prescribes, and the invariant is kept |

## Left out

- Rendering is not modelled: `showMessage`, the `style` writes, the CSS class encoding of brick state and the message strings. The message is an enumerated field, and the brick state is the `kind` and `hit` fields.
- Frame scheduling is not modelled: `requestAnimationFrame` and `cancelAnimationFrame`. `Animate` is one deterministic frame that does nothing while no round runs.
- Key codes and event objects are not modelled. A key is Space, LeftArrow, RightArrow or another key. `console.log` calls are left out.
- JavaScript double rounding and the integer rounding of `offsetLeft`/`offsetTop` are not modelled. Positions are exact reals.
- The mix of viewport coordinates (`getBoundingClientRect`) and offset coordinates is not modelled. All boxes are in one arena coordinate system, and element sizes come from CSS as `Config` parameters.
- `checkCollisions`, `checkScreenCollisions`, the `tracking` object, the `isUN` flag, the commented-out reset on space when `isGaveOver` (brickbreaker.js:529-531) and the Escape key named only in a TODO comment (brickbreaker.js:545) are left out: they are never called, never read, commented out, or stubs.
- A hidden ball (`display: none` after a game over or a cleared level) has no box in the model, so it touches nothing. In a browser, `getBoundingClientRect` of such an element is a zero-size box at the viewport origin, which could still touch a brick or the platform there; the model abstracts that away.
- The arena width and height are natural numbers. A fractional `rect.width` or `rect.height` is not modelled, so the brick offset `width % 160` is always a whole number here.
- The score and lives spans are left out, because nothing ever updates them.
- `initialize` only shows the start message. The `Game` constructor models that state; the page load event is left out.
- Layout.StartingLevelBuild: proved only for an arena at least 3960 high, a height that rules out skipping for any 32 cells. The exact smallest height for the starting level depends on the width and is not computed.
- Properties.StartingLevelCount: carries the same tall-arena hypothesis, for the same reason.
- Properties.NextLevelInv: requires a zero counter. `moveToNextLevel` does not reset the counter when it clears the bricks, so the invariant holds after it only because its one call site fires on a zero counter.
- BrickBreaker.Game.BuildBricks: takes the level grid rather than its index. BuildCurrentLevel does the catalog lookup of `buildBricks(current_level)`.
