# Pac-Man simulation core in Dafny

This project models the deterministic simulation of a tile-based Pac-Man clone written in JavaScript, and proves properties of that model with Dafny. It covers:

- the maze grid: ASCII parsing, total tile queries, blocking rules and no-turn-up tiles;
- the SCATTER/CHASE wave schedule;
- the dot tracker;
- the ghost engine and the four targeting rules (Blinky, Pinky, Inky, Clyde);
- Pac-Man's movement;
- the score keeper, the bonus fruit, the score popups and the input handler;
- the game object that ties them together.

Each source file becomes one module:

- `Maze`: `TileMap.js`;
- `Waves`: `WaveController.js`;
- `Dots`: `DotManager.js`;
- `Ghosts`: `Ghost.js`;
- `BlinkyAI`, `PinkyAI`, `InkyAI`, `ClydeAI`: the four ghost subclasses;
- `Player`: `PacMan.js`;
- `Scoring`: `ScoreManager.js`;
- `Bonus`: `Fruit.js`;
- `Popups`: `ParticleSystem.js`;
- `Input`: `InputHandler.js`;
- `Game`: `Game.js`.

`Shared` holds the vocabulary they share: vectors, directions, ghost states, tile geometry and the tunnel wrap.

Objects whose fields the source updates in place are classes whose methods modify those fields:

- `TileMap`, `WaveController`, `DotManager`, `Ghost`, `PacMan`;
- `ScoreManager`, `Fruit`, `ParticleSystem`, `InputHandler`, `Game`.

Loops stay loops:

- the maze parser's nested loops;
- the dot initialisation;
- the popup buffer's backward splice;
- the fixed-step loop of `loop`;
- the loops over the ghosts.

Each method is proved against a pure function of the old state: `Waves.Tick`, `Dots.Eat`, `Ghosts.Advance`, `Player.Tick`, `Scoring.Add`, `Bonus.Step`, `Popups.Pushed` and so on. The properties the game relies on are then proved as lemmas about those functions.

Modelling conventions:

- Positions, speeds and timers are `real`.
- Every `Math.hypot(...) < k` or `<= k` is a comparison of squared distances against `k * k`. `Shared.HypotBelow` and `Shared.HypotAtMost` prove this equivalent to the original test for the true distance.
- `Math.random` becomes a `roll` parameter: a frightened ghost takes `validDirs[roll % length]`. Every valid direction is reachable (`Ghosts.FrightenedReachesEveryValid`).
- Events sent on the event bus are returned as values. The game calls the listeners' bodies directly, in the order the source registers them: the score keeper's first, then the game's.

## Model

| member | source | states |
|---|---|---|
| Maze.TileOfChar | src/world/TileMap.js:14-23 | each ASCII character maps to its tile kind, and any character outside the table (including `X` and space) is an empty tile; no character yields the no-turn-up marker |
| Maze.TrimStart | src/world/TileMap.js:39 | the leading part of `trim()`: what it drops is all white space and what it keeps starts with a non-space |
| Maze.TrimEnd | src/world/TileMap.js:39 | the trailing part of `trim()`: what it drops is all white space and what it keeps ends with a non-space |
| Maze.Trim | src/world/TileMap.js:39 | the trimmed text neither starts nor ends with white space |
| Maze.Split | src/world/TileMap.js:39 | `split('\n')` gives at least one row and no row holds a newline |
| Maze.JoinSplit | src/world/TileMap.js:39 | joining the split rows with newlines gives back the text |
| Maze.SplitJoin | src/world/TileMap.js:39 | splitting newline-free rows joined by newlines gives back the rows |
| Maze.SplitRow | src/world/TileMap.js:39 | a text without newlines splits into itself |
| Maze.SplitRowThenNewline | src/world/TileMap.js:39 | a row, a newline and a tail split into the row followed by the tail's rows |
| Maze.Rows | src/world/TileMap.js:39-40 | the maze always has at least one row, so `rows[0]` exists |
| Maze.ParseRow | src/world/TileMap.js:46-50 | one row yields exactly `width` tiles, however long the row text is |
| Maze.ParsedGridLength | src/world/TileMap.js:42-51 | the filled grid has `width * height` cells |
| Maze.ParsedGridConcat | src/world/TileMap.js:44-51 | parsing rows one block after another gives the concatenation of their cells |
| Maze.ParsedGridNextRow | src/world/TileMap.js:44-51 | filling row `y` appends exactly that row's tiles to the cells of the rows before it |
| Maze.ParsedGridAt | src/world/TileMap.js:47-49 | cell `y * width + x` holds the tile of character `x` of row `y`, a space when the row is short |
| Maze.CellIndexInRange | src/world/TileMap.js:49 | an in-bounds cell's flat index lies inside the grid |
| Maze.CellIndexInjective | src/world/TileMap.js:82 | distinct in-bounds cells have distinct flat indices |
| Maze.Lookup | src/world/TileMap.js:78-83 | on a flat grid, any coordinate outside the grid reads as a tunnel |
| Maze.LookupParsed | src/world/TileMap.js:38-51 | after parsing, `getTile(x, y)` is the tile of character `x` of row `y` inside the grid and a tunnel outside it |
| Maze.LookupAfterSet | src/world/TileMap.js:85-89 | after `setTile(x, y, t)` on an in-bounds cell, `getTile` answers `t` at `(x, y)` and is unchanged everywhere else |
| Maze.NoTurnUpZonesAreRegions | src/world/TileMap.js:59-64 | the two regions `applyNoTurnUpZones` adds are columns 12 to 15 of rows 11 and 23, exactly |
| Maze.TileMap.constructor | src/world/TileMap.js:29-36 | the new map has `height` equal to the number of trimmed rows and `width` equal to the first row's length; its grid is the parsed rows; its overlay is the no-turn-up zones |
| Maze.TileMap.ParseOptions | src/world/TileMap.js:38-52 | sets height, width and a fresh grid holding the parsed rows, and leaves the overlay alone |
| Maze.TileMap.ParseCells | src/world/TileMap.js:44-51 | the nested loops fill a fresh grid with exactly the parsed rows, each padded with spaces |
| Maze.TileMap.FillRow | src/world/TileMap.js:46-50 | the inner loop writes one row's tiles from the row's start and leaves every later cell alone |
| Maze.TileMap.ApplyNoTurnUpZones | src/world/TileMap.js:59-64 | the overlay becomes exactly the no-turn-up zones |
| Maze.TileMap.SetNoTurnUpRegion | src/world/TileMap.js:66-72 | adds every tile of the inclusive rectangle to the overlay, and nothing else |
| Maze.TileMap.IsNoTurnUpTile | src/world/TileMap.js:74-76 | true exactly for columns 12 to 15 of rows 11 and 23 |
| Maze.TileMap.GetTile | src/world/TileMap.js:78-83 | a tunnel outside the grid, the cell `y * width + x` inside it |
| Maze.TileMap.SetTile | src/world/TileMap.js:85-89 | writes the addressed cell when it is in bounds and changes nothing otherwise |
| Maze.TileMap.IsSolidForPacman | src/world/TileMap.js:91-94 | solid exactly on walls and the ghost-house door, hence never outside the grid |
| Maze.TileMap.IsSolidForGhost | src/world/TileMap.js:96-104 | walls are always solid; the door is solid for every ghost but an EATEN or LEAVING_HOUSE one, and open to those two; whatever is solid for Pac-Man is solid for every other ghost, and nothing a ghost finds solid is open to Pac-Man |
| Waves.Schedule | src/world/WaveController.js:8-17 | eight entries alternating SCATTER and CHASE from SCATTER; every entry but the last lasts at least 5 s; the last lasts forever |
| Waves.Tick | src/world/WaveController.js:23-38 | a paused clock is unchanged and reports nothing; otherwise the timer advances and the phase changes exactly when it reaches the current duration, moving one entry on to the other state with the excess time kept; `currentState` always matches the table |
| Waves.Run | src/world/WaveController.js:23-38 | any sequence of updates keeps `currentState` matching the current table entry |
| Waves.RunCountsChanges | src/world/WaveController.js:29-35 | the entry index grows by exactly the number of reported changes, at most one per update |
| Waves.FinalWaveAbsorbing | src/world/WaveController.js:16-35 | once the final CHASE entry is current, no updates ever change the phase again |
| Waves.PausedFrozen | src/world/WaveController.js:24 | while paused, any sequence of updates changes nothing and reports nothing |
| Waves.FirstChangeAtSeven | src/world/WaveController.js:29-34 | from the start, an update enters CHASE exactly when it covers at least 7 seconds |
| Waves.WaveController.constructor | src/world/WaveController.js:2-21 | level 1, first entry (SCATTER), timer 0, not paused |
| Waves.WaveController.Update | src/world/WaveController.js:23-38 | clock and result are Tick of the old clock; the level is kept |
| Waves.WaveController.GetCurrentState | src/world/WaveController.js:40-42 | the state of the current table entry, always SCATTER or CHASE |
| Waves.WaveController.SetPaused | src/world/WaveController.js:45-47 | the pause flag becomes the argument |
| Dots.CountTrue | src/world/DotManager.js:94-96 | the count of set flags is at most the number of flags, and zero exactly when no flag is set |
| Dots.CountTrueClear | src/world/DotManager.js:51-54 | clearing one set flag lowers the count by exactly one, so `totalDots - dotsEaten` keeps counting the flags |
| Dots.InitialFlags | src/world/DotManager.js:25-35 | flag `i` is set exactly when grid cell `i` holds a dot or a power pellet; cells past the grid are never flagged |
| Dots.Eat | src/world/DotManager.js:49-57 | a dot is eaten exactly when the flat index is in range and flagged; then that flag alone is cleared and the count drops by one; otherwise nothing changes |
| Dots.EatTwice | src/world/DotManager.js:49-57 | eating the same cell a second time finds nothing and changes nothing |
| Dots.Flash | src/world/DotManager.js:59-66 | the visibility flips exactly when the timer reaches 0.25 s, and then the timer restarts at 0; a timer that starts in range stays within [0, 0.25) |
| Dots.DotManager.constructor | src/world/DotManager.js:7-23 | one flag per cell of the map, set exactly on its pickups; `totalDots` is their number, none eaten, flash timer 0, pellets visible |
| Dots.DotManager.InitializeDots | src/world/DotManager.js:25-35 | the flags become InitialFlags of the grid and `totalDots` grows by their number |
| Dots.DotManager.Reset | src/world/DotManager.js:37-42 | adopts the given map, or keeps the old one when none is given; flags and `totalDots` are recomputed for it and `dotsEaten` is 0 |
| Dots.DotManager.EatDot | src/world/DotManager.js:49-57 | the flags change as Eat at `y * width + x`; a returned tile is that cell's, a dot or a power pellet; `dotsEaten` grows exactly when something is returned; the flags keep counting what is left |
| Dots.DotManager.Update | src/world/DotManager.js:59-66 | timer and visibility become Flash of the old ones |
| Dots.DotManager.GetDotsRemaining | src/world/DotManager.js:94-96 | `totalDots - dotsEaten` is the number of flags still set, and zero exactly when every pickup is eaten |
| Ghosts.OppositeIsNegation | src/entities/Ghost.js:10-12 | `isOpposite(a, b)` holds exactly when `a` is `b` negated, and it is symmetric |
| Ghosts.Look | src/entities/Ghost.js:83-90 | the surroundings record exactly the maze's no-turn-up answer for the tile and, of the four directions, exactly those whose neighbour is solid for the ghost |
| Ghosts.Allowed | src/entities/Ghost.js:75-90 | the skip rules of the direction loop: a direction is skipped when it reverses a moving ghost, when it turns up on a no-turn-up tile outside EATEN and FRIGHTENED, or when its tile is solid; its reading against the maze is `AllowedInMaze` |
| Ghosts.AllowedInMaze | src/entities/Ghost.js:75-90 | read against the maze, a direction passes the loop exactly when it is not the reverse of a moving ghost, not a forbidden turn up on a no-turn-up tile (outside EATEN and FRIGHTENED), and not into a solid tile |
| Ghosts.ValidDirs | src/entities/Ghost.js:70-98 | after `n` iterations `validDirs` holds at most `n` directions |
| Ghosts.ValidDirsMembers | src/entities/Ghost.js:75-98 | `validDirs` holds exactly the allowed directions among those examined, in both directions of the equivalence |
| Ghosts.Scan | src/entities/Ghost.js:68-97 | after `n` iterations the best direction found, if any, is one already examined |
| Ghosts.ChooseDirection | src/entities/Ghost.js:66-109 | `_chooseDirection`: a FRIGHTENED ghost with some valid direction takes `validDirs[roll % count]`; a moving ghost with none reverses; otherwise the nearest valid direction, the first in Up, Left, Down, Right on a tie, or the current one; its properties are the `Scan…` and `Choice…` lemmas, `NearestFirst`, `NeverIntoSolid`, `NoTurnUpRespected` and `FrightenedReachesEveryValid` |
| Ghosts.ScanBest | src/entities/Ghost.js:68-97 | the loop finds no best direction exactly when none was allowed; the best one is allowed, no farther from the target than any allowed direction, and strictly nearer than every allowed direction before it in Up, Left, Down, Right order |
| Ghosts.ScanFindsIffValid | src/entities/Ghost.js:93-106 | `bestDist` stays Infinity exactly when `validDirs` is empty |
| Ghosts.ChoiceIsValid | src/entities/Ghost.js:100-108 | with some valid direction, the chosen direction is one of them, so an allowed unit step |
| Ghosts.ChoiceWhenFree | src/entities/Ghost.js:100-108 | with some valid direction, a FRIGHTENED ghost takes `validDirs[roll mod length]` and any other ghost takes the loop's best |
| Ghosts.ChoiceWhenTrapped | src/entities/Ghost.js:104-108 | with no valid direction, a moving ghost reverses and a stopped one stays stopped |
| Ghosts.NearestFirst | src/entities/Ghost.js:92-96 | outside FRIGHTENED, the choice is at least as near the target as every valid direction, and strictly nearer than every allowed direction earlier in the priority order |
| Ghosts.ChoiceIsDirection | src/entities/Ghost.js:66-109 | when the current direction is stopped or a unit step, so is the choice |
| Ghosts.UnitOrReverse | src/entities/Ghost.js:101-108 | a unit step, or the reverse of a direction, is a direction |
| Ghosts.ReversesOnlyWhenTrapped | src/entities/Ghost.js:76-106 | a moving ghost turns back exactly when it has no valid direction (rule 1, both directions) |
| Ghosts.NeverIntoSolid | src/entities/Ghost.js:89-108 | a ghost with somewhere to go never chooses a direction into a tile that is solid for it |
| Ghosts.ChoiceIsOpen | src/entities/Ghost.js:89-108 | with somewhere to go, the choice is one of the four directions and not one reported solid |
| Ghosts.LookedOpen | src/entities/Ghost.js:90 | a direction the surroundings report open leads to a tile the maze does not find solid for the ghost |
| Ghosts.NoTurnUpRespected | src/entities/Ghost.js:82-87 | on a no-turn-up tile a ghost that is neither EATEN nor FRIGHTENED goes up only as the forced reverse of moving down with nowhere else to go |
| Ghosts.FrightenedReachesEveryValid | src/entities/Ghost.js:100-102 | every valid direction of a FRIGHTENED ghost is the choice for some random roll |
| Ghosts.NextTarget | src/entities/Ghost.js:115-125 | SCATTER and LEAVING_HOUSE target the scatter corner, CHASE the ghost's own chase target, EATEN the tile (13, 11); FRIGHTENED, JUST_LEFT_HOUSE and IDLE keep the old target |
| Ghosts.SpeedMultiplier | src/entities/Ghost.js:127-135 | 2 exactly when EATEN; 0.5 exactly when FRIGHTENED or on a tunnel tile outside EATEN; 1 otherwise |
| Ghosts.AfterCheckpoint | src/entities/Ghost.js:158-163 | LEAVING_HOUSE at (13, 11) becomes JUST_LEFT_HOUSE, EATEN at (13, 14) becomes LEAVING_HOUSE, and no other state or tile changes the state |
| Ghosts.ChaseTarget | src/entities/Ghost.js:118-120 | in CHASE the target is the ghost's own `getTargetTile`: Blinky's, Pinky's, Inky's or Clyde's `TargetTile` |
| Ghosts.Snaps | src/entities/Ghost.js:144-153 | the snap window: within 2 pixels of the tile centre, and either the last step crossed the centre along the direction or the ghost is within 1 pixel of it; `CentreSnaps` shows a ghost on the centre always snaps |
| Ghosts.Turn | src/entities/Ghost.js:155-175 | the step at the centre: snap to it, take the checkpoint transitions, choose a direction for the new state, record it as the eye direction unless it is zero, and step 0.1 pixel along it; `EyesNeverZero` and `AdvanceTurnsOnlyAtCentre` state its effects |
| Ghosts.CentreSnaps | src/entities/Ghost.js:144-153 | a ghost exactly on a tile centre is always inside the snap window |
| Ghosts.Move | src/entities/Ghost.js:178-193 | after moving, the tile is the tile of the pixel position, the column is inside a maze of positive width, and direction, eyes and state are kept |
| Ghosts.Advance | src/entities/Ghost.js:139-193 | a non-IDLE ghost's update once its target is set: `Turn` inside the snap window, then `Move`; `AdvanceKeepsSynced` and `AdvanceTurnsOnlyAtCentre` state what it keeps |
| Ghosts.AdvanceKeepsSynced | src/entities/Ghost.js:139-193 | a whole update keeps the tile in sync with the pixel position and the direction stopped or a unit step, and leaves the ghost in a column of the maze |
| Ghosts.AdvanceTurnsOnlyAtCentre | src/entities/Ghost.js:146-176 | outside the snap window direction, eyes and state are kept; inside it the ghost takes the checkpoint state and the direction chosen for its tile |
| Ghosts.EyesNeverZero | src/entities/Ghost.js:168-170 | the eye direction never becomes zero, and after a turn it is the new non-zero direction |
| Ghosts.Ghost.View | src/entities/Ghost.js:16-24 | what the other ghosts read is this ghost's name and tile |
| Ghosts.Ghost.constructor | src/entities/Ghost.js:15-50 | a new ghost sits at the centre of its start tile, in its start state and direction, with its scatter corner, target (0, 0) and eyes to the right; its tile matches its position |
| Ghosts.Ghost.Update | src/entities/Ghost.js:111-194 | an IDLE ghost changes nothing; otherwise the target is set by the state rules and the pose becomes Advance of the old pose with that target and speed; the tile stays in sync with the position and inside the maze |
| Ghosts.Ghost.TurnAtCentre | src/entities/Ghost.js:153-175 | the pose after the snap-window step is Turn of the pose before it |
| Ghosts.Ghost.MoveAndWrap | src/entities/Ghost.js:178-193 | the pose after moving is Move of the pose before it |
| BlinkyAI.TargetTile | src/entities/Blinky.js:18-21 | Blinky targets Pac-Man's tile; `TargetIgnoresOthers` states what it does not depend on |
| BlinkyAI.TargetIgnoresOthers | src/entities/Blinky.js:18-21 | Blinky's chase target depends on Pac-Man's tile alone, not on the other ghosts or Blinky's own tile |
| PinkyAI.TargetTile | src/entities/Pinky.js:17-28 | four tiles ahead of Pac-Man, except facing up, where it is four up and four left (the arcade overflow quirk) |
| PinkyAI.TargetCases | src/entities/Pinky.js:18-25 | a stopped Pac-Man is its own target; facing up the offset is (-4, -4); along any other unit direction the target is exactly four tiles away |
| InkyAI.FindBlinky | src/entities/Inky.js:20-21 | `ghosts.find` finds nothing exactly when no ghost is named Blinky, and otherwise gives the tile of the first one that is |
| InkyAI.Pivot | src/entities/Inky.js:24-29 | two tiles ahead of Pac-Man, and two more to the left when facing up |
| InkyAI.TargetTile | src/entities/Inky.js:18-39 | Pac-Man's tile when there is no Blinky; otherwise twice the pivot minus Blinky's tile |
| InkyAI.TargetReflectsBlinky | src/entities/Inky.js:32-38 | the pivot is the midpoint of Blinky and the target, so a Blinky on the pivot makes the pivot the target |
| ClydeAI.TargetTile | src/entities/Clyde.js:21-29 | Clyde targets Pac-Man's tile when the squared distance exceeds 64, otherwise his scatter corner; `FarMeansSquaredAbove64` ties that to the true distance |
| ClydeAI.FarMeansSquaredAbove64 | src/entities/Clyde.js:21-29 | with `h` the true distance, `h > 8` exactly when the squared distance exceeds 64; farther than 8 tiles Clyde targets Pac-Man, otherwise his scatter corner |
| Shared.HypotAtMost | src/entities/Ghost.js:144-147 | `hypot <= k` holds exactly when the sum of squares is at most `k * k`, which is how the snap window is modelled |
| Shared.HypotBelow | src/entities/Ghost.js:92-93 | `hypot < k` holds exactly when the sum of squares is below `k * k`, so the distance comparison can be made on squares |
| Shared.SquareLess | src/entities/Ghost.js:92-93 | squaring is strictly increasing on non-negative reals |
| Shared.DirectionCases | src/entities/Ghost.js:43-49 | a movement direction is exactly zero or one of the four unit steps |
| Shared.NegatedIsDirection | src/entities/Ghost.js:67 | reversing a movement direction gives a movement direction |
| Shared.TileOfCentre | src/entities/Ghost.js:26-28 | the centre pixel of a tile lies in that tile |
| Shared.TunnelWrap | src/entities/Ghost.js:186-193 | the tile column is the column of the new position; off the left edge the ghost re-enters in the last column, off the right edge at pixel 0; inside the maze nothing changes; in a maze of positive width the column is always in range |
| Player.Facing | src/entities/PacMan.js:37-42 | right faces 0 degrees, left 180, down 90, up 270; a zero direction keeps the current angle |
| Player.ReversalIsOpposite | src/entities/PacMan.js:58-63 | between movement directions, the instant-reverse test holds exactly when the buffered direction is the opposite of a non-zero current direction |
| Player.TakeInput | src/entities/PacMan.js:53-63 | a non-zero request replaces the buffered direction and a zero one keeps it; a reversal takes effect at once and turns the sprite; otherwise nothing but the buffer changes |
| Player.Overshoot | src/entities/PacMan.js:102 | the carried overshoot is never negative |
| Player.AtCentre | src/entities/PacMan.js:76-88 | the turn window: within 4 pixels of the tile centre, and either the last step crossed the centre along the direction (strict comparisons) or Pac-Man is within 1 pixel of it |
| Player.Steer | src/entities/PacMan.js:88-137 | the movement phase with the two maze answers as flags: turn into an open buffered direction at the centre, stop at the centre before a solid tile, or move straight on; `SteerCases` states the three outcomes |
| Player.SteerCases | src/entities/PacMan.js:78-137 | Pac-Man changes direction exactly when it is at the centre and the differing buffered direction is open, and then lands on the centre plus the overshoot; it stops exactly when at the centre, not turning and facing a solid tile, and then stands on the centre; otherwise it moves `speed` pixels straight on; buffer, tile and mouth are untouched |
| Player.Resync | src/entities/PacMan.js:139-150 | after the resync the tile is the tile of the position and the column is inside a maze of positive width; nothing else but `x` changes |
| Player.Animate | src/entities/PacMan.js:161-173 | the mouth stays between 0 and 45 degrees and turns round at either end; a stopped Pac-Man shows 20 degrees; the swing direction stays -1 or 1 |
| Player.Travel | src/entities/PacMan.js:53-150 | the movement part of `update`: take the input, reverse at once, steer against the maze, resync the tile and wrap; `TurnsOnlyIntoOpen` and `StopsOnlyAtWalls` state its turns and stops |
| Player.Tick | src/entities/PacMan.js:50-173 | `update` of a living Pac-Man: `Travel`, then the mouth animation; `TickKeepsInvariant` states what every update keeps |
| Player.TickKeepsInvariant | src/entities/PacMan.js:50-173 | every update keeps the tile in sync with the position and in a column of the maze, both directions movement directions and the mouth within its range |
| Player.TurnsOnlyIntoOpen | src/entities/PacMan.js:58-107 | a change of direction is always to the buffered direction, and either an instant reversal or a turn into a tile that is not solid for Pac-Man |
| Player.StopsOnlyAtWalls | src/entities/PacMan.js:110-117 | at a centre, facing a solid tile and unable to turn, Pac-Man stands on the centre with its direction kept and the mouth at 20 degrees |
| Player.EventOf | src/entities/PacMan.js:154-159 | a power pellet is announced exactly when one was consumed, a dot exactly when a dot was |
| Player.PacMan.View | src/entities/Inky.js:24-25 | what the ghosts read of Pac-Man is its tile and its direction |
| Player.PacMan.constructor | src/entities/PacMan.js:9-35 | a new Pac-Man is alive on the centre of its start tile, heading and buffering left, facing 180 degrees, mouth closed and opening |
| Player.PacMan.ResetRotation | src/entities/PacMan.js:37-42 | the new angle is Facing of the direction and the old angle |
| Player.PacMan.Update | src/entities/PacMan.js:50-174 | a dead Pac-Man changes nothing and announces nothing; a living one takes Tick's pose; when it started within 3 pixels of its centre it eats at its new tile, as `eatDot` does, announcing a power pellet exactly when the eaten tile was one; otherwise nothing is eaten |
| Player.PacMan.Advance | src/entities/PacMan.js:53-173 | the pose becomes Tick of the old pose, keeping the class invariant for a movement-direction input |
| Player.PacMan.EatHere | src/entities/PacMan.js:152-160 | the dot flags change as `eatDot` at Pac-Man's tile does, and the event names the kind of pickup eaten |
| Player.PacMan.Move | src/entities/PacMan.js:53-150 | pose and moving flag are Travel of the old pose |
| Player.PacMan.ApplyInput | src/entities/PacMan.js:53-63 | the pose becomes TakeInput of the old pose |
| Player.PacMan.SteerStep | src/entities/PacMan.js:65-137 | pose and moving flag are Steer of the old pose |
| Player.PacMan.TurnOrStop | src/entities/PacMan.js:88-125 | at the centre, pose and moving flag are Steer of the old pose |
| Player.PacMan.StepAhead | src/entities/PacMan.js:119-120 | the pose moves `speed` pixels along its direction |
| Player.PacMan.SyncTile | src/entities/PacMan.js:139-150 | the pose becomes Resync of the old pose |
| Player.PacMan.AnimateMouth | src/entities/PacMan.js:161-173 | the mouth becomes Animate of the old mouth |
| Scoring.Add | src/core/ScoreManager.js:47-59 | the score grows by the points; the high score is the old high score or the new score, whichever is larger; EXTRA_LIFE is announced exactly when the score reaches 10000 before the award was made, and the award flag is then set for good; the combo is kept |
| Scoring.GhostValue | src/core/ScoreManager.js:33 | the points for a ghost are always one of 200, 400, 800, 1600 |
| Scoring.GhostValueDoubles | src/core/ScoreManager.js:15 | each ghost of a combo is worth twice the one before, up to the 1600 cap, from the fourth on |
| Scoring.ExtraLifeAtMostOnce | src/core/ScoreManager.js:55-58 | over any series of `addScore` calls EXTRA_LIFE is announced at most once, exactly when the award flag goes from unset to set, and a set flag stays set |
| Scoring.HighScoreBounds | src/core/ScoreManager.js:50-53 | the high score never falls, and after any `addScore` it is at least the score |
| Scoring.ScoreNeverFalls | src/core/ScoreManager.js:48 | with no negative amounts the score never falls |
| Scoring.ExtraLifeOnReaching | src/core/ScoreManager.js:55-58 | with no negative amounts, the life has been awarded after a series exactly when it had been before or the score has reached 10000 |
| Scoring.EatGhost | src/core/ScoreManager.js:32-39 | the points are the combo's current value; they are added to the score as any points are, with the same high score and extra-life award as `Add`, and the combo advances by one |
| Scoring.FourGhostsAfterPellet | src/core/ScoreManager.js:27-35 | a power pellet and then four ghosts earn 50 + 200 + 400 + 800 + 1600 points and leave a combo of 4 |
| Scoring.ScoreManager.constructor | src/core/ScoreManager.js:4-22 | score 0, the stored high score, combo 0, no extra life awarded |
| Scoring.ScoreManager.AddScore | src/core/ScoreManager.js:47-59 | state and the EXTRA_LIFE flag are Add of the old state |
| Scoring.ScoreManager.OnDotEaten | src/core/ScoreManager.js:25 | 10 points are added |
| Scoring.ScoreManager.OnPowerPelletEaten | src/core/ScoreManager.js:27-30 | 50 points are added and the combo restarts at 0 |
| Scoring.ScoreManager.OnGhostEaten | src/core/ScoreManager.js:32-39 | the state becomes EatGhost of the old one, and the popup shows those points at the ghost's position |
| Scoring.ScoreManager.OnFruitEaten | src/core/ScoreManager.js:41-44 | the fruit's points are added, and the popup shows them at the fruit's position |
| Bonus.FruitScore | src/entities/Fruit.js:17-33 | levels 1, 2 and 3 give 100, 300 and 500 points; every other level gives the default 700 |
| Bonus.Near | src/entities/Fruit.js:46-47 | Pac-Man is within 8 pixels of the fruit, as a squared distance at most 64 (`Shared.HypotAtMost`); `Step` eats the fruit exactly then |
| Bonus.Step | src/entities/Fruit.js:36-55 | a hidden fruit changes nothing; a showing one loses `dt` from its timer, and disappears unseen when the timer runs out; otherwise it is eaten, and disappears, exactly when Pac-Man is within 8 pixels; a fruit still showing always has time left |
| Bonus.FruitExpires | src/entities/Fruit.js:30-43 | if the updates after a spawn add up to at least the time left, the fruit is gone, whatever Pac-Man does |
| Bonus.Fruit.constructor | src/entities/Fruit.js:4-25 | hidden, timer 0, no fruit chosen |
| Bonus.Fruit.Spawn | src/entities/Fruit.js:30-34 | showing, for 9.5 seconds, worth the level's fruit score |
| Bonus.Fruit.Update | src/entities/Fruit.js:36-55 | the state becomes Step of the old one, and FRUIT_EATEN is announced, with the fruit's position and score, exactly when Step eats it |
| Popups.NewPop | src/rendering/ParticleSystem.js:18-26 | a new popup has one second of life and rises at 15 pixels per second |
| Popups.Pushed | src/rendering/ParticleSystem.js:13-27 | the new popup goes at the end; below capacity nothing else changes; at capacity the oldest is dropped first, so the buffer never exceeds 16 |
| Popups.PushedKeepsNewest | src/rendering/ParticleSystem.js:14-18 | adding to a full buffer keeps it at 16 entries, the newest ones in order |
| Popups.Aged | src/rendering/ParticleSystem.js:32-33 | ageing takes `dt` off the life and moves the popup by `vy * dt`, nothing else |
| Popups.Survivors | src/rendering/ParticleSystem.js:29-39 | the popups left after an update, in order: each one aged, the expired ones dropped; `SurvivorsAreLive`, `SurvivorsFrom` and `NoneExpire` state its properties |
| Popups.SurvivorsAreLive | src/rendering/ParticleSystem.js:29-39 | after an update no popup is expired, each one is an aged popup of the buffer, every popup that outlives `dt` is kept, and the buffer never grows |
| Popups.SurvivorsFrom | src/rendering/ParticleSystem.js:30-38 | the survivors of the buffer from index `i` on are the `i`-th popup, if it is still alive, followed by the survivors after it |
| Popups.NoneExpire | src/rendering/ParticleSystem.js:29-39 | when no popup expires, every popup keeps its place and is aged |
| Popups.ParticleSystem.constructor | src/rendering/ParticleSystem.js:2-5 | an empty buffer |
| Popups.ParticleSystem.AddPop | src/rendering/ParticleSystem.js:13-27 | the buffer becomes Pushed of the old buffer and the new popup, and stays within capacity |
| Popups.ParticleSystem.Update | src/rendering/ParticleSystem.js:29-39 | the backward splicing loop leaves exactly the survivors, in order |
| Input.KeyDown | src/core/InputHandler.js:59-83 | each of player one's bound keys sets the matching direction and any other key keeps it; the same for player two's keys; the pause keys latch a pause and Space also latches an action; latches are never cleared here |
| Input.PlayersIndependent | src/core/InputHandler.js:62-82 | player two's keys never move player one, and player one's keys never move player two |
| Input.Sign | src/core/InputHandler.js:117-120 | `Math.sign`: 1 exactly for positive, -1 exactly for negative, otherwise 0 |
| Input.Abs | src/core/InputHandler.js:113-115 | `Math.abs`: non-negative, and the value or its negation |
| Input.Swipe | src/core/InputHandler.js:104-124 | `_handleTouchEnd`: past the threshold the longer axis decides the direction, otherwise it is kept; `SwipeIsUnit` states the result |
| Input.SwipeIsUnit | src/core/InputHandler.js:104-124 | a swipe no longer than 20 pixels on either axis changes nothing; a longer one gives a unit direction along the dominant axis, pointing the way the finger moved, with a tie counted as vertical |
| Input.HeldDirections | src/core/InputHandler.js:59-124 | keys and swipes keep both players' intents stopped or unit directions |
| Input.Tap | src/core/InputHandler.js:94-100 | `_handleTouchStart`: a tap within 300 ms of the last latches a pause and clears the tap time, any other records its time; `DoubleTap` states a run of taps |
| Input.DoubleTap | src/core/InputHandler.js:89-102 | a first tap at least 300 ms after the last records its time; a second tap within 300 ms latches a pause and clears the tap time; a later tap at least 300 ms after time 0 is an ordinary first tap again |
| Input.InputHandler.constructor | src/core/InputHandler.js:2-32 | no intent for either player, nothing latched, touch start and tap time 0 |
| Input.InputHandler.HandleKeyDown | src/core/InputHandler.js:59-83 | the latched state becomes KeyDown of the old one, and both intents stay movement directions |
| Input.InputHandler.HandleTouchStart | src/core/InputHandler.js:89-102 | without a touch nothing changes; with one the touch start is recorded and the pause latch and tap time follow the double-tap rule |
| Input.InputHandler.HandleTouchEnd | src/core/InputHandler.js:104-124 | without a touch the intent is kept; with one it becomes the swipe's direction from the recorded start |
| Input.InputHandler.PointerUp | src/core/InputHandler.js:51-53 | an action is latched |
| Input.InputHandler.ConsumePause | src/core/InputHandler.js:129-135 | returns whether a pause was latched, and clears the latch |
| Input.InputHandler.ConsumeAction | src/core/InputHandler.js:137-143 | returns whether an action was latched, and clears the latch |
| Game.PauseToggle | src/core/Game.js:163-169 | a latched pause flips PLAYING and PAUSED and leaves any other screen alone; `PauseTwiceResumes` states its round trip |
| Game.PauseTwiceResumes | src/core/Game.js:163-169 | pausing and then unpausing (PauseToggle, the pause check at the head of `update`) returns to the screen the game was in |
| Game.IntroStep | src/core/Game.js:172-177 | one LEVEL_INTRO step adds `dt` to the screen timer and enters PLAYING exactly when the timer passes 4.5 s; otherwise the screen stays LEVEL_INTRO |
| Game.IntroLasts | src/core/Game.js:172-177 | from a fresh intro at 1/60 s per step the intro stays on screen for 270 steps (4.5 s is not past 4.5) and play starts on the 271st |
| Game.DeathStep | src/core/Game.js:226-242 | one PLAYER_DEATH step adds `dt` to the timer; Pac-Man spins exactly while the timer is below 2 s; at most 3 s nothing else changes; past 3 s one life is lost and the screen becomes PLAYING while lives stay at or above 0, else GAME_OVER |
| Game.DeathLasts | src/core/Game.js:226-242 | a death lasts 181 fixed steps, spinning for the first 119, and the 181st step takes a life and leaves for a fresh level or, after the last life, GAME_OVER |
| Game.FrameTime | src/core/Game.js:144-147 | the frame time is the elapsed milliseconds over 1000, clamped to at most 0.25 s |
| Game.AtMostFifteenSteps | src/core/Game.js:147-154 | with less than one step in the accumulator before a frame, one frame runs at most 15 updates, however long it took |
| Game.WaveTurn | src/core/Game.js:186-191 | on a wave change a SCATTER or CHASE ghost takes the new phase and turns round, any other is left alone; `WaveTurnTwice` states that two changes restore its heading |
| Game.WaveTurnTwice | src/core/Game.js:183-192 | a SCATTER or CHASE ghost turned round by two wave changes in a row (WaveTurn) heads the way it did before them, in the second phase; its direction stays a unit step |
| Game.Frighten | src/core/Game.js:82-87 | a power pellet makes every ghost neither EATEN nor IDLE FRIGHTENED and turns it round; `PelletWindow` pairs it with `Unfrighten` |
| Game.Unfrighten | src/core/Game.js:75-79 | at the end of the window a FRIGHTENED ghost takes the wave's phase and keeps its direction; `PelletWindow` pairs it with `Frighten` |
| Game.PelletWindow | src/core/Game.js:72-87 | a power pellet (Frighten) followed by the end of its 6-second window (Unfrighten) leaves a ghost that was out and not eaten in the wave's phase heading the other way, and an EATEN or IDLE ghost untouched |
| Game.Release | src/core/Game.js:196-199 | the house release changes a ghost's state only from IDLE to LEAVING_HOUSE, and does so exactly for Pinky, for Inky from 30 dots eaten, and for Clyde from 60 |
| Game.ReleaseInOrder | src/core/Game.js:196-199 | the ghosts leave in order: Blinky is never held, Pinky leaves at once, and whenever Clyde is let out so is Inky |
| Game.Doorway | src/core/Game.js:202-205 | a JUST_LEFT_HOUSE ghost takes the wave's phase before it moves; `DoorwayNeverLingers` states that none stays JUST_LEFT_HOUSE |
| Game.DoorwayNeverLingers | src/core/Game.js:202-205 | since the wave is always SCATTER or CHASE, no ghost moves while JUST_LEFT_HOUSE, and the doorway check (Doorway) is idempotent |
| Game.Collide | src/core/Game.js:209-221 | closer than 6 pixels a FRIGHTENED ghost is eaten and a SCATTER or CHASE ghost catches Pac-Man; anything else does nothing; `EatenOnce` states that a ghost is eaten only once |
| Game.EatenOnce | src/core/Game.js:209-221 | a ghost eaten by the collision check (Collide) is EATEN, harms nobody and cannot be eaten again however close Pac-Man stays |
| Game.CaughtScreen | src/core/Game.js:214-220 | with the correction under Findings: outside PLAYING a contact leaves the screen alone; in PLAYING the screen becomes PLAYER_DEATH exactly on a catch |
| Game.CaughtScreenAsWritten | src/core/Game.js:214-220 | the contact rule as written: any catch enters PLAYER_DEATH, whatever the screen; `LastDotThenCaught` shows what that does to a won tick |
| Game.LastDotThenCaught | src/core/Game.js:214-220 | as written, a catch after the last dot of the same tick turns VICTORY into PLAYER_DEATH, and with no dot left no later DOT_EATEN can bring VICTORY back |
| Game.VictoryStands | src/core/Game.js:201-222 | with the correction, a VICTORY reached during a tick survives every later contact, and from PLAYING the tick ends in PLAYER_DEATH exactly when some ghost catches Pac-Man, and stays PLAYING exactly when none does |
| Game.CaughtAll | src/core/Game.js:201-222 | with the correction under Findings: the screen after the tick's contacts in order; `StaysCaught`, `VictoryStands` and `CaughtAllSnoc` state its properties |
| Game.StaysCaught | src/core/Game.js:201-222 | once in PLAYER_DEATH, later contacts of the tick change nothing |
| Game.CaughtAllSnoc | src/core/Game.js:201-222 | the screen after one more contact is that contact applied to the screen after the earlier ones (the loop's step) |
| Game.FruitDue | src/core/Game.js:96 | the fruit check of the DOT_EATEN handler: the pickup count, power pellets included, is 70 or 170; `TwoFruitsPerMaze` counts the spawns |
| Game.FruitSpawns | src/core/Game.js:94-98 | the fruits spawned over a maze's pickups in order: the k-th pickup makes the count k, and only a plain dot runs the fruit check; `TwoFruitsPerMaze` states its properties |
| Game.TwoFruitsPerMaze | src/core/Game.js:94-98 | over the pickups of one maze the fruit spawns at most twice: once exactly when the 70th pickup is a plain dot and once exactly when the 170th is; a power pellet raises the count (`src/world/DotManager.js:50-54`) but goes to the POWER_PELLET_EATEN handler (`src/entities/PacMan.js:154-159`), which has no fruit check |
| Game.NewLevel | src/core/Game.js:57-67 | `_initLevel` builds a new live Pac-Man on tile (14, 23) heading left, a new inactive fruit, and four new distinct ghosts Blinky, Pinky, Inky, Clyde on (13, 11), (13, 14), (11, 14), (15, 14) in their start states |
| Game.LoadMaze | src/core/Game.js:47 | the maze is read into a new well-formed tile map |
| Game.LoadDots | src/core/Game.js:49 | the dot manager over the new maze has eaten nothing and counts exactly its active dots |
| Game.NewParts | src/core/Game.js:44-51 | the managers are new: a well-formed maze and dot manager, a score keeper at score 0 with the stored high score, the first wave entry, no popups |
| Game.Game.Poses | src/core/Game.js:61-66 | the four ghosts' poses, in list order |
| Game.Game.Targets | src/core/Game.js:61-66 | the four ghosts' target tiles, in list order |
| Game.Game.OthersDiffer | src/core/Game.js:61-66 | the four ghosts of the list are distinct objects |
| Game.Game.Views | src/core/Game.js:207 | what each ghost's targeting reads of the four ghosts, in list order |
| Game.Game.constructor | src/core/Game.js:24-55 | a new game is in BOOT with 3 lives, level 1, timers and accumulator at 0, not running, score 0 with the stored high score, a full dot count, the first wave entry, no popups, and a fresh level |
| Game.Game.ChangeState | src/core/Game.js:124-139 | the screen becomes the new one; LEVEL_INTRO and PLAYER_DEATH reset the screen timer; LEVEL_INTRO, GAME_OVER and VICTORY drop the latched tap and pause, and other screens keep them |
| Game.Game.Start | src/core/Game.js:115-122 | the game is running from `now`, in LEVEL_INTRO with the timer at 0 and no latched input |
| Game.Game.Loop | src/core/Game.js:141-160 | a stopped game does nothing; a running one records the frame's time and leaves in the accumulator the old amount plus the clamped frame time minus one step per update run, less than one step and never negative when it started non-negative |
| Game.Game.StepsOf | src/core/Game.js:149-154 | the time left is the time given minus one step per update run, and less than one step |
| Game.Game.RunSteps | src/core/Game.js:151-154 | the loop runs updates while a whole step remains, keeps the game well formed, and leaves the time given minus one step per update, less than one step |
| Game.Game.Update | src/core/Game.js:162-257 | the game stays well formed; the menu screens never change; PAUSED is reached only from PLAYING or PAUSED, and without a latched pause a paused game stays paused with its lives |
| Game.Game.PauseCheck | src/core/Game.js:163-169 | the screen becomes PauseToggle of the old screen and the latched pause: only PLAYING and PAUSED consume the latch, and the latch flips between the two |
| Game.Game.ScreenStep | src/core/Game.js:171-256 | the branch of the current screen keeps the game well formed; the menu screens and PAUSED change neither the screen, the lives nor the latched pause, and no branch enters PAUSED |
| Game.Game.EndStep | src/core/Game.js:226-255 | proof structure, a slice of `ScreenStep` verified on its own: the death and end screens keep the game well formed and never enter PAUSED |
| Game.Game.IntroTick | src/core/Game.js:172-177 | the timer and screen become IntroStep of the old timer |
| Game.Game.PlayingTick | src/core/Game.js:178-223 | a PLAYING tick keeps the game well formed, ends in PLAYING, VICTORY or PLAYER_DEATH, and never loses a life |
| Game.Game.TimersTick | src/core/Game.js:179-192 | the flash, popups, fruit and wave updates keep the game well formed and never lose a life |
| Game.Game.FlashStage | src/core/Game.js:179-180 | proof structure, a slice of `TimersTick` verified on its own: the dot flash and popup updates keep the game well formed |
| Game.Game.FruitStage | src/core/Game.js:181 | proof structure, a slice of `TimersTick` verified on its own: the fruit update keeps the game well formed and never loses a life |
| Game.Game.WaveStage | src/core/Game.js:183-192 | proof structure, a slice of `TimersTick` verified on its own: the wave update keeps the game well formed and leaves the lives alone |
| Game.Game.PacTick | src/core/Game.js:194 | Pac-Man's move and its handlers keep the game well formed, end in PLAYING or VICTORY, and never lose a life |
| Game.Game.PacStage | src/core/Game.js:194 | proof structure, a slice of `PacTick` verified on its own: Pac-Man's update keeps the game well formed |
| Game.Game.PelletStage | src/core/Game.js:70-88 | proof structure, a slice of `PacTick` verified on its own: the power-pellet handlers keep the game well formed and never lose a life |
| Game.Game.DotStage | src/core/Game.js:94-103 | proof structure, a slice of `PacTick` verified on its own: the dot handlers keep the game well formed, end in PLAYING or VICTORY and never lose a life |
| Game.Game.GhostsTick | src/core/Game.js:196-222 | with the correction under Findings: the release and ghost pass keep the game well formed and never lose a life; a won tick stays won, and a PLAYING tick ends in PLAYING or PLAYER_DEATH |
| Game.Game.PassStage | src/core/Game.js:201-222 | proof structure, a slice of `GhostsTick` verified on its own: as GhostsTick, with the correction under Findings, for the ghost pass alone |
| Game.Game.FruitTick | src/core/Game.js:181 | the fruit becomes Bonus.Step of the old fruit; when it is eaten its points are added (an extra life when the threshold is crossed) and a cyan popup is pushed at the fruit's place; otherwise score, lives and popups are unchanged |
| Game.Game.WaveTick | src/core/Game.js:183-192 | the wave clock becomes Waves.Tick of the old one, and exactly when the phase changed every ghost becomes WaveTurn of its old pose in the new phase; targets are untouched |
| Game.Game.ReverseOnWaveChange | src/core/Game.js:186-191 | every ghost becomes WaveTurn of its old pose: SCATTER and CHASE ghosts take the phase and turn round, others are untouched |
| Game.Game.WaveTurnOne | src/core/Game.js:187-190 | one ghost becomes WaveTurn of its old pose |
| Game.Game.OnPowerPelletEaten | src/core/Game.js:70-88 | 50 points with the combo reset (an extra life when the threshold is crossed), the wave paused, one more pending timeout, and every ghost becomes Frighten of its old pose |
| Game.Game.FrightenAll | src/core/Game.js:82-87 | every ghost becomes Frighten of its old pose, targets untouched |
| Game.Game.FrightenOne | src/core/Game.js:83-86 | one ghost becomes Frighten of its old pose |
| Game.Game.FrightenPose | src/core/Game.js:83-86 | a ghost neither EATEN nor IDLE becomes FRIGHTENED and turns round (Frighten) |
| Game.Game.FrightenedTimeout | src/core/Game.js:72-80 | the scheduled callback resumes the wave, retires one pending timeout, and every ghost becomes Unfrighten of its old pose in the wave's phase |
| Game.Game.UnfrightenAll | src/core/Game.js:75-79 | every ghost becomes Unfrighten of its old pose |
| Game.Game.UnfrightenOne | src/core/Game.js:76-78 | a FRIGHTENED ghost adopts the phase, keeping its direction (Unfrighten) |
| Game.Game.OnDotEaten | src/core/Game.js:94-103 | 10 points (an extra life when the threshold is crossed); the level's fruit spawns exactly when the pickup count, power pellets included, is 70 or 170; the screen becomes VICTORY exactly when no dot is left, and then the latched action and pause are dropped; otherwise the screen, the timer and both latches are kept |
| Game.Game.ReleaseStage | src/core/Game.js:196-199 | proof structure, a slice of `GhostsTick` verified on its own: the house release keeps the game well formed |
| Game.Game.ReleaseFromHouse | src/core/Game.js:196-199 | each ghost's state becomes Release of its index, its old state and the dots eaten; nothing else changes |
| Game.Game.GhostPass | src/core/Game.js:201-222 | the ghosts' poses, targets and contacts become Pass of the old poses and targets: ghost k moves and meets Pac-Man (GhostTurn) against the ghosts as they stand after the turns of ghosts 0 to k-1; each contact is a catch exactly when that ghost ends in SCATTER or CHASE less than 6 pixels from Pac-Man, and a ghost is eaten only when it ends EATEN that close; with the correction under Findings, the screen is CaughtAll of the four contacts: a won tick stays won, and a PLAYING tick ends in PLAYER_DEATH, with the timer at 0, exactly when some ghost caught Pac-Man, and a screen that does not change keeps its timer; score, lives and popups are Feast of the contacts: each eaten ghost, in order, runs the GHOST_EATEN handlers with its popup where that ghost ends; the input latches are outside the frame, so a catch keeps them |
| Game.Game.PassEffects | src/core/Game.js:201-222 | proof structure, the part of `GhostPass` the game loop relies on, so that `PassStage` does not carry the poses: the screens as in `GhostPass`; through `FeastCounts`, lives never drop, and with no ghost eaten score, lives and popups are unchanged |
| Game.Game.RunPass | src/core/Game.js:202-221 | proof structure, the loop of `GhostPass`: from the invariant `Progress` for no turn to `Progress` for all four |
| Game.Game.PassTurn | src/core/Game.js:202-221 | proof structure, one iteration of the loop of `GhostPass`: the loop invariant `Progress` for the first k turns gives it for k + 1 |
| Game.Game.TallyTurn | src/core/Game.js:202-221 | proof structure, `GhostStep` with the running tally of screen, timer, score, lives and popups (`Tally`, with `Feast` of the contacts so far) carried one turn further |
| Game.Feast | src/core/Game.js:209-213 | the score, lives and popups after a pass's contacts in order, each GhostEaten running EatGhost, a life on EXTRA_LIFE and a cyan popup at that ghost's place; `FeastSnoc`, `FeastFrame` and `FeastCounts` state its properties |
| Game.FeastSnoc | src/core/Game.js:209-213 | one more contact whose effect on score, lives and popups is that of the GHOST_EATEN handlers, or none when no ghost is eaten, extends Feast by that contact |
| Game.FeastFrame | src/core/Game.js:202-213 | Feast depends only on the places of the ghosts that have had their turn, so the later turns of a pass do not change it |
| Game.FeastCounts | src/core/ScoreManager.js:32-39 | over a pass the combo advances once per ghost eaten, the score never drops, lives never drop, and without a ghost eaten nothing changes |
| Game.Game.ReplacedOne | src/core/Game.js:201 | when only ghost `i` changed, the poses and targets differ at `i` at most |
| Game.Game.Names | src/core/Game.js:61-66 | the four ghosts' names, in list order |
| Game.Game.GhostStep | src/core/Game.js:202-221 | ghost `i`'s pose, target and contact become GhostTurn of its old pose and target: the doorway check and its update (GhostMove), then Collide at its new place; the other ghosts are untouched; an eaten ghost is scored through the combo (an extra life when the threshold is crossed) with a cyan popup where it stands, and otherwise score, lives and popups are unchanged; with the correction under Findings, the screen becomes CaughtScreen of the contact, and a screen that does not change keeps its timer; the input latches are outside the frame |
| Game.GhostTurn | src/core/Game.js:202-221 | one ghost's turn as a value: its move (GhostMove), then Collide at its new place; `TurnOutcome` states what it decides |
| Game.Pass | src/core/Game.js:201-222 | the first n turns of the ghost loop as a value, with one contact per turn; `PassStep`, `PassKeepsLater`, `PassKeepsEarlier`, `PassHoldsTurn`, `PassTurns` and `PassCatches` state its properties |
| Game.Turn | src/core/Game.js:202-221 | turn k of the ghost loop, from where the first k turns left the ghosts; `PassHoldsTurn` and `PassTurns` state its properties |
| Game.ViewsOf | src/core/Game.js:207 | what the targeting rules read of ghosts with these names and poses, in list order |
| Game.TurnOutcome | src/core/Game.js:202-221 | one ghost's turn: the collision changes only the moved ghost's state; the contact is a catch exactly when the ghost ends its move in SCATTER or CHASE less than 6 pixels from Pac-Man, and an eating exactly when it ends its move FRIGHTENED that close, and it is then EATEN |
| Game.PassStep | src/core/Game.js:201-222 | the first k + 1 turns are the first k followed by turn k, which replaces ghost k's pose and target and appends its contact |
| Game.PassKeepsLater | src/core/Game.js:201 | after the first n turns, the ghosts from n on still have their old poses and targets |
| Game.PassKeepsEarlier | src/core/Game.js:201 | the turns from j on leave the poses of ghosts 0 to j-1 as they were after the first j turns |
| Game.PassHoldsTurn | src/core/Game.js:201-222 | after n turns, ghost j's pose, target and contact (j < n) are the outcome of its own turn (`Turn`) |
| Game.PassTurns | src/core/Game.js:201-222 | after n turns, ghost j (j < n) has made its turn from its old pose and target, against the poses of ghosts 0 to j-1 after their turns and of ghosts j on before theirs |
| Game.PassCatches | src/core/Game.js:209-220 | after n turns, contact j is a catch exactly when ghost j ends in SCATTER or CHASE less than 6 pixels from Pac-Man, and an eating only when it ends EATEN that close |
| Game.GhostMove | src/core/Game.js:202-207 | a ghost's move as a value: the doorway check, then `update`, which leaves an IDLE ghost alone; `MoveGhost` follows it |
| Game.Game.MoveGhost | src/core/Game.js:202-207 | the ghost's pose and target become GhostMove of the old ones: the doorway check, then its update |
| Game.Game.ResolveContact | src/core/Game.js:209-221 | the ghost's state and the contact are Collide of its state and the squared distance; an eaten ghost is scored through the combo with a cyan popup where it stood; otherwise score, lives and popups are unchanged; with the correction under Findings, a catch while PLAYING enters PLAYER_DEATH with the timer at 0 (`EnterDeath`) and a catch on any other screen leaves the screen alone; the input latches are outside the frame, as `changeState(PLAYER_DEATH)` keeps them |
| Game.Game.DeathTick | src/core/Game.js:226-242 | the timer, lives and screen become DeathStep of the old ones; while spinning the angle grows by 400 degrees per second, and otherwise the old Pac-Man's angle is kept; a respawn builds a new Pac-Man, fruit and four ghosts in their start places (LevelStart), and otherwise the actors are the same objects; GAME_OVER drops the latched action and pause, and every other outcome keeps both |
| Game.Game.LoseLife | src/core/Game.js:233-240 | a life is taken; while one remains, a fresh level (LevelStart) in PLAYING with the latches kept; after the last, GAME_OVER with the same actors and the latches dropped; the timer is kept |
| Game.Game.Respawn | src/core/Game.js:236-237 | a fresh level in its start places (LevelStart) is built and play resumes, the timer and both latches kept |
| Game.Game.EnterDeath | src/core/Game.js:131-133 | `changeState(PLAYER_DEATH)`: the screen is PLAYER_DEATH and the timer 0; the input is outside the frame |
| Game.Game.DeathStage | src/core/Game.js:226-242 | proof structure, a slice of `EndStep` verified on its own: the death step keeps the game well formed and never enters PAUSED |
| Game.Game.EnterLevel | src/core/Game.js:57-67 | a new level as NewLevel states, entered in the given screen with ChangeState's effect on timer and latches: dropped for LEVEL_INTRO, GAME_OVER and VICTORY, kept otherwise |
| Game.Game.RestartStage | src/core/Game.js:243-255 | proof structure, a slice of `EndStep` verified on its own: the end screens keep the game well formed and never enter PAUSED |
| Game.Game.RestartKey | src/core/Game.js:246 | a restart is asked exactly when an action or a pause was latched; the action latch is cleared, and the pause latch survives only when both were latched |
| Game.Game.Renew | src/core/Game.js:246-254 | proof structure, a slice of `RestartStage` verified on its own: a new game keeps the game well formed and enters LEVEL_INTRO |
| Game.Game.Restart | src/core/Game.js:247-253 | a new game: 3 lives, level 1, score 0 with the high score, combo and extra-life flag kept, the dot flags of a full maze, none eaten, a new first wave, a fresh level, LEVEL_INTRO with timer 0 and no latched input |
| Game.Game.NewRun | src/core/Game.js:247-251 | 3 lives, level 1, score 0 with everything else of the score kept, a full maze with none eaten, and a new first wave |

## Left out

- Rendering is left out: every `render` and `_drawEyes` method, `MazeRenderer.js`, the HUD, the ghosts' colours and `isFlashing`, and the `alpha` passed to `render` at the end of `loop`. It is drawing only and changes no simulation state.
- `AudioSystem.js` and every `PLAY_SOUND` event are left out: they are sound output.
- `main.js`, `requestAnimationFrame` and the listener registration in `InputHandler.init` are left out: they are browser wiring. The handlers themselves are modelled. This includes the `pointerup` latch as `Input.InputHandler.PointerUp`, but not the `preventDefault` calls.
- `EventBus.js` is left out. Each emitted event is a returned value, and the listener is called by the model directly.
- The high score is not persisted. The `localStorage` read becomes the constructor parameter `storedHigh`, and the write in `addScore` is left out as I/O.
- `performance.now()`, the frame timestamps and the touch timestamps are parameters.
- The 6-second `setTimeout` of the power-pellet listener is not scheduled.
  - `pendingTimeouts` counts callbacks that are scheduled and not yet run.
  - `Game.Game.FrightenedTimeout` is the callback's body, for the environment to run once that time has passed.
  - When it runs relative to the fixed-step updates is not modelled.
- Floating-point rounding is not modelled: arithmetic is exact on `real`. `Infinity` is represented as `Waves.Forever` (the last wave) or as `None` (no best distance yet).
- The maze text `src/world/mazes/classic.js` is not part of this model. `Game.Game.constructor` and `Maze.TileMap.constructor` take the ASCII maze as a parameter.
- `GhostHouse.js` is left out: it is an empty stub with no behaviour.
- The ghost's `nextDir` field is left out: it is set and never read.
- A popup's `text` is the number of points, which is what every caller passes.
- `Ghosts.Ghost.Update` and `Game.Game.MoveGhost` take the other ghosts as `GhostView` values (name and tile), which is all the targeting rules read. They take Pac-Man as a `PacView` (tile and direction).
- The rule functions `Ghosts.Allowed`, `Ghosts.ChaseTarget`, `Ghosts.Snaps`, `Ghosts.Turn`, `Ghosts.Advance`, `Player.AtCentre`, `Player.Steer`, `Player.Travel`, `Player.Tick`, `Game.CaughtScreenAsWritten`, `Game.CaughtAll`, `Game.FruitDue`, `Game.FruitSpawns`, `Game.GhostMove`, `Game.GhostTurn`, `Game.Turn`, `Game.ViewsOf`, `Bonus.Near`, `Input.Swipe`, `Input.Tap` and `Popups.Survivors` carry no `ensures` of their own: each is the rule itself, and its properties are the lemmas named in its row.
- `BlinkyAI.TargetTile` and `ClydeAI.TargetTile` carry no `ensures` of their own. Their properties are the lemmas `BlinkyAI.TargetIgnoresOthers` and `ClydeAI.FarMeansSquaredAbove64`. The same holds for `Ghosts.ChooseDirection`, whose properties are the `Choice…` and `Scan…` lemmas.
- `Game.PauseToggle`, `Game.WaveTurn`, `Game.Frighten`, `Game.Unfrighten`, `Game.Doorway` and `Game.Collide` carry no `ensures` of their own. Their properties are `Game.PauseTwiceResumes`, `Game.WaveTurnTwice`, `Game.PelletWindow`, `Game.DoorwayNeverLingers` and `Game.EatenOnce`. The methods state that they follow them: `PauseCheck`, `WaveTick`, `OnPowerPelletEaten`, `FrightenedTimeout`, `MoveGhost` and `ResolveContact`.
- Game.Game.Loop: states the clock facts only: `lastTime`, and what the accumulator keeps. The state after the updates is stated by `Game.Game.RunSteps`, which keeps the game's invariant across them. The running accumulator is kept in a local during the loop and stored when it ends; `update` never reads it.
- Game.Game.Update: states the screen facts and the invariant, not the whole new state. The new state of each screen is stated by the members it calls: `IntroTick`, `PauseCheck`, `WaveTick`, `FruitTick`, `OnDotEaten`, `OnPowerPelletEaten`, `ReleaseFromHouse`, `GhostPass`, `DeathTick` and `Restart`.
- Game.Game.ScreenStep: as `Update`, for the branch of the current screen.
- Game.Game.StepsOf: only the accumulator arithmetic, by design. It lets `Loop` reason about that alone.
- Game.Game.PlayingTick: the invariant, the possible screens and the lives only. The details are in `WaveTick`, `FruitTick`, `OnDotEaten`, `OnPowerPelletEaten`, `ReleaseFromHouse` and `GhostPass`.
- Game.Game.TimersTick: the invariant and the lives only. The details are in `Dots.DotManager.Update`, `Popups.ParticleSystem.Update`, `FruitTick` and `WaveTick`.
- Game.Game.FlashStage: the invariant only. The details are in `Dots.DotManager.Update` and `Popups.ParticleSystem.Update`.
- Game.Game.FruitStage: the invariant and the lives only. The details are in `FruitTick`.
- Game.Game.WaveStage: the invariant and the lives only. The details are in `WaveTick`.
- Game.Game.PacTick: the invariant, the screens and the lives only. The details are in `Player.PacMan.Update`, `OnPowerPelletEaten` and `OnDotEaten`.
- Game.Game.PacStage: the invariant only. The details are in `Player.PacMan.Update`.
- Game.Game.PelletStage: the invariant and the lives only. The details are in `OnPowerPelletEaten`.
- Game.Game.DotStage: the invariant, the screens and the lives only. The details are in `OnDotEaten`.
- Game.Game.GhostsTick: the invariant, the screens and the lives only. The details are in `ReleaseFromHouse` and `GhostPass`. It runs the corrected contact rule of the Findings table, `Game.CaughtScreen`: a catch on a screen other than PLAYING, such as a VICTORY reached earlier in the same tick, leaves the screen alone. `src/core/Game.js:218-219` enters PLAYER_DEATH on every catch; that as-written rule is `Game.CaughtScreenAsWritten`, and `Game.LastDotThenCaught` shows where the two differ.
- Game.Game.PassStage: as `GhostsTick`, for `GhostPass` alone. It runs the corrected contact rule of the Findings table, `Game.CaughtScreen`: a catch on a screen other than PLAYING, such as a VICTORY reached earlier in the same tick, leaves the screen alone. `src/core/Game.js:218-219` enters PLAYER_DEATH on every catch; that as-written rule is `Game.CaughtScreenAsWritten`, and `Game.LastDotThenCaught` shows where the two differ.
- Game.Game.GhostPass: Runs the corrected contact rule of the Findings table, `Game.CaughtScreen`: a catch on a screen other than PLAYING, such as a VICTORY reached earlier in the same tick, leaves the screen alone. `src/core/Game.js:218-219` enters PLAYER_DEATH on every catch; that as-written rule is `Game.CaughtScreenAsWritten`, and `Game.LastDotThenCaught` shows where the two differ.
- Game.Game.GhostStep: Runs the corrected contact rule of the Findings table, `Game.CaughtScreen`: a catch on a screen other than PLAYING, such as a VICTORY reached earlier in the same tick, leaves the screen alone. `src/core/Game.js:218-219` enters PLAYER_DEATH on every catch; that as-written rule is `Game.CaughtScreenAsWritten`, and `Game.LastDotThenCaught` shows where the two differ.
- Game.Game.ResolveContact: Runs the corrected contact rule of the Findings table, `Game.CaughtScreen`: a catch on a screen other than PLAYING, such as a VICTORY reached earlier in the same tick, leaves the screen alone. `src/core/Game.js:218-219` enters PLAYER_DEATH on every catch; that as-written rule is `Game.CaughtScreenAsWritten`, and `Game.LastDotThenCaught` shows where the two differ.
- Game.Game.ReleaseStage: the invariant only. The details are in `ReleaseFromHouse`.
- Game.Game.EndStep: the invariant only. The details are in `DeathTick` and `Restart`.
- Game.Game.DeathStage: the invariant only. The details are in `DeathTick`.
- Game.Game.RestartStage: the invariant only. The details are in `RestartKey` and `Restart`.
- Game.Game.Renew: the invariant and the new screen only. The details are in `Restart`.
- The members `Game.Game.FlashStage`, `FruitStage`, `WaveStage`, `PacStage`, `PelletStage`, `DotStage`, `PassStage`, `ReleaseStage`, `EndStep`, `DeathStage`, `RestartStage` and `Renew` are proof structure, not operations of the source. Each is a slice of its caller's body, verified on its own so that the caller's proof stays small.
- `Game.Game.PassEffects`, `RunPass`, `PassTurn` and `TallyTurn` are proof structure too: the loop of `GhostPass` as it is proved, not operations of the source. `Game.Game.Progress` (what the first k turns have done) is its loop invariant, and `Game.Game.Tally` is the part of it about the screen, the timer, the score, the lives and the popups.
- Maze.TileMap.ParseOptions: a row's length and a tile's column count characters of `seq<char>`, while `rows[0].length` and `rowStr[x]` in `src/world/TileMap.js:41` and `src/world/TileMap.js:47` count UTF-16 code units. The two differ only on characters outside the Basic Multilingual Plane, which no maze uses.
- Game.LoadMaze: well-formedness only. The parse itself is stated by `Maze.TileMap.constructor`.
- Game.LoadDots: the counters only. The flags are stated by `Dots.DotManager.constructor`.

## Findings

| source | as written | input that shows it | evidently intended | confidence | as-written member | corrected member |
|---|---|---|---|---|---|---|
| src/core/Game.js:214-220 | The ghost loop sends the game to PLAYER_DEATH on any catch, even when the last dot, eaten earlier in the same tick, has already switched to VICTORY. The respawned level keeps the empty maze, so no later DOT_EATEN can bring VICTORY back: VICTORY can no longer be reached, and the run can only end in GAME_OVER (`src/core/Game.js:234-240`). | One PLAYING tick in which Pac-Man eats the last dot and a CHASE or SCATTER ghost then comes within 6 pixels of Pac-Man. | A catch ends play only while the screen is still PLAYING, so a won tick stays won. | not executed | Game.LastDotThenCaught | Game.VictoryStands |
