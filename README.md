# xiaofang — a verified model of the LED-cube firmware

xiaofang ("little cube") is the firmware of two 8x8 LED cubes that are played by
tilting them. This project models in Dafny the deterministic core of that
firmware and proves properties of it.

Two boards are covered:
- the ESP32 cube with a WS2812 matrix, under `cube/`;
- the first cube with a MAX7219 matrix, under `src/`.

It also models the libraries the firmware carries with it:
- the `cube_rand` generator;
- the two maze generators, `maze` and `irrgarten`;
- `smart-leds-matrix`;
- `ws2812-spi-rs`.

What is modelled, by file:

- `common.dfy`: the five-way tilt direction (`None`, `Up`, `Right`, `Down`, `Left`), points and their one-unit step, the web colours, the 8x8 one-bit frame in which pixel (x, y) is bit 7-x of row y, and an `Option` type.
- `cube_rand.dfy`: `CubeRng`, the 64-bit linear congruential generator, with `random`, `random_range` and `fill_bytes`. The range helpers are split into a pure function of the 32-bit draw, so what a caller can get out of a range is proved once.
- `carving.dfy`, `maze_gen.dfy`, `irrgarten.dfy`: the recursive-backtracker maze carving over a column-major grid of 0/1 tiles. The carving uses an explicit stack. The shuffle of the four directions is an injected `picks` function.
- `map_view.dfy`, `player.dfy`: the scrolling 8x8 viewport ("vision") over a larger map, and the player's one-step move.
- `maze_game.dfy`, `sokoban.dfy`, `cube_man.dfy`, `snake.dfy`, `dodge_cube.dfy`: the move rules of the games. These are the maze walk, Sokoban (with its XSB level parser), "CubeMan" falling down floors, snake, and the dodge game. A game round with its tilt known is a `Tick` method.
- `menu_ui.dfy`, `cube_app.dfy`: the menu screens, their icons, the `Ad` direction and its display name, the menu index wrap-around, and the maze-side choice.
- `bit_frame.dfy`, `cube_face.dfy`, `cube_ledc.dfy`, `timers.dfy`, `glyphs.dfy`:
  - the mutable one-bit frames and the face sprites of `cube/src/face.rs`;
  - byte-to-pixel expansion and the two-digit score frame of `cube/src/ledc.rs`;
  - the hourglass timer of `cube/src/timers.rs`;
  - the trigram and die tables.
- `ledc.dfy`, `expressions.dfy`, `xiaofang.dfy`, `snake_record.dfy`, `led_strip.dfy`: the first cube:
  - the MAX7219 buffers with their rotations and rolls;
  - its face sprites;
  - its `Position` and menu;
  - the start state of its snake record;
  - the WS2812 strip demo.
- `led_layout.dfy`, `led_matrix.dfy`, `ws2812_spi.dfy`: the matrix index layout with axis inversion, the drawing target, and the WS2812 two-bits-per-SPI-byte encoder in its direct and prerendered forms.

Conventions:
- Integer overflow wraps round as in a release build (`u8`, `i8`, `u32`, `u64`, `usize`, `i32`), and the wrap is written out where it matters.
- An index out of bounds, an `unwrap` of `None`, a division by zero and an explicit panic are either excluded by a `requires` or returned as an error value. Each such `requires` is listed under "Left out".
- Randomness, the accelerometer, the LED drivers and timers are outside the model: random values and tilts are parameters, and what is sent to the LEDs is kept as a log.
- Where the source has a bug, the operations follow the code as written. The corrected definition is stated and proved beside it; see "Findings".

## Model

| member | source | states |
|---|---|---|
| Common.Step | cube/src/player.rs:31-41 | the one-unit move shared by every game: Up is y-1, Right x+1, Down y+1, Left x-1, and `None` stays put |
| Common.StepMovesUnlessNone | cube/src/player.rs:31-41 | a step leaves the point where it was exactly when the direction is `None` |
| Common.Opposite | cube/src/lib.rs:65-75 | Up and Down swap, Right and Left swap; only `None` is its own opposite |
| Common.OppositeInvolution | cube/src/lib.rs:65-75 | taking the opposite twice gives the direction back |
| Common.StepOpposite | cube/src/lib.rs:65-75 | a step followed by a step the opposite way returns to the start |
| CubeRand.AsU32 | cube_rand/src/lib.rs:43 | `x as u32` keeps a value below 2^32 unchanged |
| CubeRand.LowOf | cube_rand/src/lib.rs:41-45 | an unbounded start is 0 and an included start is its value as `u32`; an excluded start is one more, and it fails exactly when the value is `u32::MAX` |
| CubeRand.HighOf | cube_rand/src/lib.rs:47-51 | an unbounded end is `u32::MAX` and an included end is its value; an excluded end is one less, and it fails exactly at 0 |
| CubeRand.RangeFromDraw | cube_rand/src/lib.rs:32-59 | any value `random_range` returns lies in `[low, high)`, half-open even for an inclusive end |
| CubeRand.RandomFromDraw | cube_rand/src/lib.rs:22-30 | `random(min, max)` is `min` when `min >= max`, and otherwise a value in `[min, max)` |
| CubeRand.RandomFrom | cube_rand/src/lib.rs:22-30 | the same bounds for a fresh generator seeded with `seed` |
| CubeRand.RangeFrom | cube_rand/src/lib.rs:32-59 | the same bounds for `random_range` on a fresh generator |
| CubeRand.InclusiveRange | cube_rand/src/lib.rs:41-58 | `a..=b` with `a < b` gives `a + u % (b - a)`, which lies in `[a, b)` and is never `b` |
| CubeRand.ExclusiveRange | cube_rand/src/lib.rs:47-58 | `a..b` sets `high = b - 1`, so the value lies in `[a, b - 1)` |
| CubeRand.RangePanics | cube_rand/src/lib.rs:33-58 | `a..=a` and `a..a+1` divide by zero; a reversed range and an excluded end of 0 panic with "empty range" |
| CubeRand.InclusiveEndUnreachable | cube_rand/src/lib.rs:57-58 | no draw whatsoever makes `a..=b` return `b` |
| CubeRand.FixedRangeFromDraw | cube_rand/src/lib.rs:53-58 | with the span size `high - low + 1`, a value comes out exactly when the bounds convert and `low <= high`; it lies in `[low, high]`, and nothing divides by zero |
| CubeRand.FixedRangeCovers | cube_rand/src/lib.rs:53-58 | with the fix, every `v` in `a..=b`, and every `v < b` in `a..b`, is drawn for some draw |
| CubeRand.LeBytesDecode | cube_rand/src/lib.rs:14-18 | the eight bytes written for one `next_u64` decode, least significant first, back to that value |
| CubeRand.CubeRng.constructor | cube_rand/src/lib.rs:9 | `CubeRng(seed)` holds `seed` as its state |
| CubeRand.CubeRng.NextU64 | cube_rand/src/lib.rs:67-70 | the state becomes `state * 6364136223846793005 + 1 mod 2^64`, and that new state is returned |
| CubeRand.CubeRng.NextU32 | cube_rand/src/lib.rs:63-65 | one LCG step; the low 32 bits of the new state are returned |
| CubeRand.CubeRng.Random | cube_rand/src/lib.rs:22-30 | with `min >= max`, `min` is returned and no draw is made; otherwise one step is taken and the result lies in `[min, max)` |
| CubeRand.CubeRng.RandomRange | cube_rand/src/lib.rs:32-59 | the state advances exactly when the bounds convert and `low <= high`; the result is `RangeFromDraw` of the new state's low 32 bits |
| CubeRand.CubeRng.FillBytes | cube_rand/src/lib.rs:12-20 | one `next_u64` per started chunk of eight bytes; byte `i` is byte `i % 8`, least significant first, of the `(i / 8 + 1)`-th value |
| CubeRand.CubeRng.TryFillBytes | cube_rand/src/lib.rs:76-79 | fills the bytes as `fill_bytes` does and always returns `Ok` |
| Carving.StepOf | maze/src/lib.rs:165-170 | each direction's step changes exactly one coordinate, by one unit |
| Carving.Shuffle | maze/src/lib.rs:162-163 | whichever order is drawn, the shuffled directions are a permutation of the four |
| Carving.Filled | maze/src/lib.rs:128 | `vec![vec![TILE_WALL; height]; width]`: `width` columns of `height` tiles, all walls |
| Carving.WallCountSet | maze/src/lib.rs:156-159 | writing a tile lowers the wall count by one exactly when it was a wall, and otherwise keeps it; this is the termination measure of the carving loop |
| Carving.CarveCount | maze/src/lib.rs:156-159 | carving an entry whose cell is a wall removes at least one wall |
| Carving.LatticeAvoidsBorder | irrgarten/src/lib.rs:22-38 | for odd dimensions, no tile the carving can open lies on the outer ring |
| Carving.KeptWalls | maze/src/lib.rs:152-153 | starting from all walls, every tile off the odd-cell lattice stays a wall; for odd dimensions that includes the whole outer ring |
| Carving.TreeWalk | maze/src/lib.rs:157-159 | following parents from a carved tile back to (1, 1) gives a walk over adjacent floor tiles |
| Carving.TreeReachable | maze/src/lib.rs:157-159 | every carved tile is 4-connected to (1, 1) through floor tiles |
| Carving.EntryOnLattice | maze/src/lib.rs:166-171 | both tiles of a stacked entry lie on the odd-cell lattice, so every carved `cell` has odd coordinates |
| Carving.CarveKeepsTree | maze/src/lib.rs:156-159 | carving an acceptable entry keeps the carved tiles a tree of adjacent floor tiles rooted at (1, 1), on the lattice; it adds exactly `path` and `cell` and removes a wall |
| Carving.PushOk | maze/src/lib.rs:171-181 | an entry pushed for an in-grid double step has its midpoint `cell + step` in the grid and points back to the pushing cell |
| Carving.TargetsOk | maze/src/lib.rs:171-181 | every pushed target is in the grid and was a wall at push time |
| Carving.LoopCarve | maze/src/lib.rs:155-183 | one carving pop keeps the loop invariant (tree, lattice, acceptable entries, changed tiles carved) and lowers the wall count |
| Carving.LoopEnd | maze/src/lib.rs:155 | at an empty stack every changed tile is a floor tile on the lattice, reachable from (1, 1) |
| Carving.PushTargets | maze/src/lib.rs:164-183 | the `for dir in dirs` loop pushes, in direction order, `(cell + step, cell + 2 * step)` for each double step that is in the grid and still a wall |
| MazeGen.Maze.constructor | maze/src/lib.rs:121-130 | `Maze::new` always succeeds with `width` columns of `height` tiles, all walls |
| MazeGen.Maze.Index | maze/src/lib.rs:87-93 | `maze[i]` is column `i`, so tile (x, y) is `maze[x][y]` |
| MazeGen.Maze.Generate | maze/src/lib.rs:143-187 | the loop terminates; tiles only ever become floor; every changed tile is on the odd-cell lattice and reachable from (1, 1); from all walls, every floor tile is reachable and, for odd dimensions, the outer ring stays walls |
| Irrgarten.Maze.constructor | irrgarten/src/lib.rs:224-233 | `Maze::new` always succeeds with `width` columns of `height` tiles, all walls |
| Irrgarten.Maze.Index | irrgarten/src/lib.rs:199-205 | `maze[i]` is column `i` |
| Irrgarten.Maze.Generate | irrgarten/src/lib.rs:246-292 | the `is_empty`/`pop().unwrap()` loop terminates and gives the same guarantees as the `maze` crate: floor is monotone, changed tiles are reachable lattice tiles, and the border of an odd-sized maze stays walls |
| MapView.NewMap | cube/src/map.rs:22-28 | a new map has the given width and height and no cells |
| MapView.PlaceBounds | cube/src/map.rs:59-84 | on an axis of at least 8 cells the window origin keeps the whole window on the map and the player inside it |
| MapView.PlaceShort | cube/src/map.rs:63-64 | on an axis shorter than 8 the window origin is 0 |
| MapView.PlaceExample | cube/src/map.rs:65-66 | near the far end the origin is `size - 8`: a player at 18 on an axis of 20 gets origin 12 |
| MapView.Keep | cube/src/map.rs:105-126 | filtering never adds cells: the result is no longer than the map and every cell in it is a map cell |
| MapView.KeepMembers | cube/src/map.rs:111-124 | a cell survives the filter exactly when it is a map cell lying in `[pos, pos + 8)` on each filtered axis |
| MapView.WindowMembers | cube/src/map.rs:105-126 | the window holds exactly the map cells that are shown, filtering only the axes of length at least 8 |
| MapView.KeepSubsequence | cube/src/map.rs:111-124 | the filter keeps the map's order: the window is a subsequence of the map's cells |
| MapView.KeepOnlyShown | cube/src/map.rs:111-124 | every cell the filter keeps lies inside the window on the filtered axes |
| MapView.SmallMapWindow | cube/src/map.rs:108-109 | a map shorter than 8 on both axes is shown whole |
| MapView.KeepAll | cube/src/map.rs:108-109 | a filter on no axis keeps every cell in order |
| MapView.AcceptsLarge | cube/src/map.rs:138-139 | on a map of at least 8x8 a new origin is accepted exactly when the whole window stays on the map |
| MapView.AcceptsNarrow | cube/src/map.rs:134-135 | on a map narrower than 8 the window may only move when the origin has x in `[0, width - 7]`, so a map narrower than 7 never scrolls |
| MapView.Vision.constructor | cube/src/map.rs:59-84 | the origin is placed around the player and the window starts empty; on a large map the player is inside the window and the window on the map |
| MapView.Vision.NextPos | cube/src/map.rs:87-97 | the origin one step towards the direction, without moving |
| MapView.Vision.Move | cube/src/map.rs:100-102 | the origin takes that step and the contents stay |
| MapView.Vision.UpdateData | cube/src/map.rs:105-126 | the contents become exactly the shown map cells in map order, and the origin stays |
| MapView.Vision.Update | cube/src/map.rs:129-147 | an accepted step moves the origin and recomputes the contents; a rejected one changes nothing, a map below 8x8 never moves, and a window on a large map stays on it |
| Players.Player.constructor | cube/src/player.rs:23-28 | the player stands at the given point and is red |
| Players.Player.NextPos | cube/src/player.rs:31-41 | the point one step towards the direction; it is the current point exactly when the direction is `None` |
| Players.Player.Move | cube/src/player.rs:44-47 | the player takes that step, its colour unchanged, and the result says whether a direction was given, i.e. whether it moved |
| MazeGame.NoHitIsFree | cube/src/maze.rs:131-146 | the next position does not hit a wall exactly when it is strictly inside the border ring and no wall cell is on it |
| MazeGame.RowWallsMembers | cube/src/maze.rs:172-177 | the cells pushed for one grid row are walls of that row, and every wall of the row gets a cell |
| MazeGame.WallListMembers | cube/src/maze.rs:171-178 | the map has a cell at (x, y) exactly when `maze[y][x] == 1`, and no cell outside the grid |
| MazeGame.WallListIsGrid | cube/src/maze.rs:164-178 | for a square maze the map's cells are exactly the walls of the generated grid |
| MazeGame.MazeMap.constructor | cube/src/maze.rs:164-186 | the map has the requested size and its cells are exactly the row-major wall list of the generated grid: a cell at (x, y) exactly when `maze[y][x] == 1`; the grid keeps the generator's guarantees (every floor tile is a lattice tile reachable from (1, 1), every off-lattice tile is a wall, the border stays wall for an odd side); start and goal are the origin, walls are white and the goal green |
| MazeGame.MazeMap.CalEpos | cube/src/maze.rs:189-208 | a goal that is found is on no wall, differs from the start and lies in `[0, width - 2) x [0, height - 2)`; the map and the start are left alone |
| MazeGame.SampleStart | cube/src/maze.rs:33-49 | a start that is found stands on no wall and strictly inside the border ring |
| MazeGame.Maze.constructor | cube/src/maze.rs:50-60 | the player is at the start, `spos` records it, the vision holds exactly the map cells of its window, the map and its grid are unchanged, the wait is 300 ms and the game is not over |
| MazeGame.Maze.Tick | cube/src/maze.rs:69-92 | a finished game or a step into a wall changes nothing; otherwise the player takes the step, the vision follows when it may, and reaching the goal ends the game; the player always stands on a free cell and the vision always holds exactly the map cells of its window |
| MazeGame.NewMaze | cube/src/maze.rs:30-63 | a maze that is built has its player on a free cell, `spos` at the player, a goal on a free cell apart from the start, the requested size, and the wall list of its generated grid |
| Sokoban.TrimStart | cube/src/sokoban.rs:244 | a suffix of the text that begins with no whitespace; everything dropped is whitespace |
| Sokoban.TrimEnd | cube/src/sokoban.rs:244 | a prefix of the text that ends with no whitespace; everything dropped is whitespace |
| Sokoban.Trim | cube/src/sokoban.rs:244 | `trim` yields a slice of the text that neither begins nor ends with whitespace |
| Sokoban.IndexOf | cube/src/sokoban.rs:244 | the position of the first `\n`, or the length when there is none |
| Sokoban.Lines | cube/src/sokoban.rs:244 | no line holds a `\n` |
| Sokoban.LinesJoin | cube/src/sokoban.rs:244 | a text without `\r` and without a final newline is the join of its lines with `\n` |
| Sokoban.ScanRowMembers | cube/src/sokoban.rs:246-278 | after scanning part of a line, each list holds its old cells and exactly the cells that line's characters push |
| Sokoban.ScanRowsMembers | cube/src/sokoban.rs:244-279 | each list holds exactly the cells whose character, at that cell's position, pushes that colour and tag onto it |
| Sokoban.ScanRowPlayer | cube/src/sokoban.rs:249-256 | within a line the player is the red `Man` on an `@` or `+` of it, and is untouched by a line without one |
| Sokoban.ScanRowsPlayer | cube/src/sokoban.rs:243-256 | the player is the red `Man` on some `@` or `+` when there is one, and the default cell otherwise |
| Sokoban.Extent | cube/src/sokoban.rs:280-291 | one more than the largest coordinate, so every cell lies below it and some cell reaches it; 0 exactly for no cells |
| Sokoban.DataNonNegative | cube/src/sokoban.rs:244-247 | the map cells have non-negative coordinates |
| Sokoban.ParseXsbLists | cube/src/sokoban.rs:242-293 | walls and `.` goals go into the map, `$` and `*` into the boxes, `.`, `*` and `+` into the goals, each exactly at its character's position |
| Sokoban.ParseXsbSize | cube/src/sokoban.rs:280-291 | the map is exactly as wide and tall as its cells reach: every cell lies inside, some cell has x = width - 1 and some has y = height - 1, and the size is 0 exactly when there are no cells |
| Sokoban.ParseXsbPlayer | cube/src/sokoban.rs:249-256 | the parsed player is the red `Man` on an `@` or `+` when the text has one, and the default cell otherwise |
| Sokoban.ScanLine | cube/src/sokoban.rs:246-278 | the inner loop computes the scan of the whole line |
| Sokoban.FromXsb | cube/src/sokoban.rs:242-293 | the nested loops compute the parsed level that the lemmas above describe |
| Sokoban.GoalsDoNotBlock | cube/src/sokoban.rs:189-204 | a position inside the border ring where the map holds only goal cells is not a wall hit |
| Sokoban.PushAll | cube/src/sokoban.rs:103-134 | the box list keeps its length, and each entry is the old one pushed if it was the box ahead |
| Sokoban.PushMovesOnlyTheBoxAhead | cube/src/sokoban.rs:103-134 | an accepted push moves only the boxes at the next position, by one step, keeping colour and tag and never onto a wall; with no box ahead nothing moves |
| Sokoban.PushNoneMovesNothing | cube/src/sokoban.rs:109 | with no direction the box list is unchanged |
| Sokoban.Positions | cube/src/sokoban.rs:140 | the set of the cells' positions: every cell's position is in it, and only those |
| Sokoban.AllOnGoalsAsSets | cube/src/sokoban.rs:139-143 | the win test holds exactly when the box positions are a subset of the goal positions |
| Sokoban.SokobanMap.constructor | cube/src/sokoban.rs:225-233 | the level's map, start, boxes and goals |
| Sokoban.Game.constructor | cube/src/sokoban.rs:39-65 | the world is the parsed level, the player red on its start, the vision holding exactly the map cells of its window, wait 300 ms, not over |
| Sokoban.Game.PushBox | cube/src/sokoban.rs:100-136 | the push is refused exactly when a box is ahead and a box (in the list before the loop) or a wall is beyond it; refused changes nothing, accepted moves the boxes ahead |
| Sokoban.Game.GameOver | cube/src/sokoban.rs:139-143 | the game is over exactly when every box is on a goal |
| Sokoban.Game.Tick | cube/src/sokoban.rs:71-94 | a finished game or a wall hit changes nothing; otherwise the player moves only when the push is accepted, the boxes follow the push, the vision tries the step even after a refused push, and the win flag is recomputed; the vision always holds exactly the map cells of its window |
| CubeMan.NewFloor | cube/src/cube_man.rs:241-272 | one pixel per point, in order, at that point and in the colour of the floor's kind |
| CubeMan.KindColorsDistinct | cube/src/cube_man.rs:241-272 | the four kinds get four different colours, so two floors of the same colour are the same kind |
| CubeMan.InitFloors | cube/src/cube_man.rs:282-286 | eight rows, all empty |
| CubeMan.Row0 | cube/src/cube_man.rs:305-308 | the points `(0, 0)` to `(len - 1, 0)` in order |
| CubeMan.RandomFloorShape | cube/src/cube_man.rs:296-321 | a floor comes out exactly when the roll `1..=10` is at least 7; it has 3 or 4 pixels (the rolled 5 is never drawn), on row 0 from x = 0, of the level's kind: Normal up to level 5, Fragile(500) up to 150, then a clockwise conveyor |
| CubeMan.AtRow | cube/src/cube_man.rs:327 | every pixel moved to the given row, x, colour and kind kept |
| CubeMan.NewRow | cube/src/cube_man.rs:324-330 | `floor` yields a floor exactly when `random` does, with every pixel on row 8 |
| CubeMan.Raised | cube/src/cube_man.rs:73-77 | every pixel one row up, x, colour and kind kept |
| CubeMan.MinX | cube/src/cube_man.rs:129 | the smallest x among the floor's pixels, attained by one of them |
| CubeMan.MaxX | cube/src/cube_man.rs:130 | the largest x among the floor's pixels, attained by one of them |
| CubeMan.Present | cube/src/cube_man.rs:99-102 | the present floors: each comes from a non-empty row, and every non-empty row's floor is among them |
| CubeMan.OnFloor | cube/src/cube_man.rs:127-136 | a floor found is the first whose x-span covers the man and which has a pixel on the row below him; none is found exactly when no floor is like that |
| CubeMan.OnFloorTail | cube/src/cube_man.rs:128 | when the first floor does not qualify, the first qualifying floor of the rest is the first of the whole list |
| CubeMan.OnScreen | cube/src/cube_man.rs:118-124 | a point is neither outside nor in a wall exactly when it is on the 8x8 screen |
| CubeMan.ConveyorLeavesScreen | cube/src/cube_man.rs:173-177 | as written, a counterclockwise conveyor carries a man at x = 0 to x = -1, off the screen |
| CubeMan.FixedConveyorStays | cube/src/cube_man.rs:163-179 | with the lower clamp the conveyor keeps an on-screen man on the screen and moves him at most one column; clockwise is unchanged |
| CubeMan.ClockwiseStays | cube/src/cube_man.rs:168-172 | the clockwise conveyor as written keeps the man on the screen |
| CubeMan.Man.constructor | cube/src/cube_man.rs:381-388 | the man is orange-red at the given point |
| CubeMan.Man.NextPos | cube/src/cube_man.rs:390-398 | only a right or left tilt moves the point, by one column; the row never changes |
| CubeMan.Man.Move | cube/src/cube_man.rs:400-402 | the man moves to that point |
| CubeMan.Man.Fall | cube/src/cube_man.rs:405-407 | one row down, x kept |
| CubeMan.Man.Up | cube/src/cube_man.rs:410-412 | one row up, x kept |
| CubeMan.RideFloor | cube/src/cube_man.rs:139-184 | Normal and Fragile floors leave the man where he is, a spring of height h lifts him h rows, a conveyor shifts his x unless he is tilted sideways |
| CubeMan.Game.constructor | cube/src/cube_man.rs:37-50 | the man at the origin, eight empty rows, depth, score and record 0, wait 230 ms, not over |
| CubeMan.Game.CalcScore | cube/src/cube_man.rs:114-116 | one more point, wrapping round at 256 as a `u8`; nothing else changes |
| CubeMan.Game.Scroll | cube/src/cube_man.rs:71-77 | still eight rows: row i is old row i + 1 one row up, and the last row is the new row 8 floor one row up (so on row 7) |
| CubeMan.Game.Move | cube/src/cube_man.rs:88-112 | a step off the top or bottom ends the game, one into a side wall does nothing, otherwise the man lands where `Landing` says; floors and score stay |
| CubeMan.Game.StepAndLand | cube/src/cube_man.rs:95-110 | the man steps, then rises one row and rides the first floor under him, or falls one row |
| CubeMan.Game.Tick | cube/src/cube_man.rs:56-85 | when over, the record becomes the larger of record and score and nothing else changes; otherwise the floors scroll up one row with a new bottom row, the man ends the game at the top or bottom edge, ignores a side wall, or steps and then rides the first floor under him or falls, and the game goes one level deeper with the score kept; the record never goes down |
| CubeMan.LandingFalls | cube/src/cube_man.rs:108-110 | with no floor under the man he falls one row |
| CubeMan.LandingRides | cube/src/cube_man.rs:97-107 | with floor i the first under the man he rises one row and rides floor i |
| CubeMan.OnFloorFirst | cube/src/cube_man.rs:127-136 | `find` returns the first floor under the man |
| CubeMan.NonEmptyPerEntry | cube/src/cube_man.rs:99-102 | the present floors all have pixels exactly when every non-empty row's floor has pixels |
| Snakes.RowByteBits | cube/src/snake.rs:207-212 | column x of a row byte is lit exactly when a body point sits at (x, y) |
| Snakes.Frame | cube/src/snake.rs:204-216 | eight row bytes, one per row |
| Snakes.FrameLit | cube/src/snake.rs:204-216 | pixel (x, y) of the snake's frame is lit exactly when a body point is there |
| Snakes.Snake.constructor | cube/src/snake.rs:154-165 | heading up, the head first in a body of the head and the point below it |
| Snakes.Snake.SetDirection | cube/src/snake.rs:167-172 | turning straight back is ignored and any other direction taken; body and head stay |
| Snakes.Snake.NextHeadPos | cube/src/snake.rs:186-198 | one step from the head in the current direction |
| Snakes.Snake.Grow | cube/src/snake.rs:174-177 | the food becomes the head, in front of the whole old body, so the snake is one longer |
| Snakes.Snake.Move | cube/src/snake.rs:179-184 | a new head one step ahead, the tail dropped, the length kept, and the head still first |
| Snakes.Snake.AsBytes | cube/src/snake.rs:204-216 | the bytes light exactly the pixels that body points occupy |
| Snakes.DrawnFrame | cube/src/snake.rs:136-141 | eight row bytes, the food's bit ORed into the food's row |
| Snakes.DrawnFrameLit | cube/src/snake.rs:136-141 | the drawn frame lights exactly the body and the food |
| Snakes.SnakeGame.constructor | cube/src/snake.rs:34-55 | an 8x8 board, the snake at (5, 5) heading up, food from two `random(0, 8)` draws, wait 600 ms, nothing scored |
| Snakes.FirstFood | cube/src/snake.rs:115-131 | the food settled on misses the body, is on the board and is one of the draws; there is none exactly when every draw lands on the body |
| Snakes.SnakeGame.CreateFood | cube/src/snake.rs:115-131 | the food is the first draw that misses the body, found exactly when there is one, and unchanged otherwise; the rest of the game is untouched |
| Snakes.SnakeGame.Move | cube/src/snake.rs:83-102 | the snake turns unless told to reverse; food ahead means it grows onto it, scores (wrapping as a `u8`) and gets as new food the first draw off the grown body, or keeps the old food when every draw hits it; leaving the board or an already overlapping head ends the game, else it moves; it always stays on the board |
| Snakes.SnakeGame.Draw | cube/src/snake.rs:133-143 | the frame written lights exactly the body and the food |
| Snakes.SnakeGame.Finish | cube/src/snake.rs:64-75 | at game over a beaten record becomes the new highest score |
| Snakes.MoveOntoBody | cube/src/snake.rs:200-202 | the overlap test looks at the current head, so the snake may move its head onto its own body without ending the game at once |
| Screens.Uis | cube/src/ui.rs:26-38 | nine screens, the default `Timer` first, none repeated |
| Screens.UisCoverAll | cube/src/ui.rs:3-38 | every screen is on the menu |
| Screens.Icon | cube/src/ui.rs:41-144 | each screen's icon is eight row bytes |
| Screens.IconsDistinct | cube/src/ui.rs:41-144 | two screens share an icon only when they are the same screen |
| CubeApp.FromDirection | cube/src/lib.rs:104-113 | a movement direction maps onto one of the four horizontal tilts |
| CubeApp.FromDirectionInjective | cube/src/lib.rs:104-113 | different directions give different tilts |
| CubeApp.Name | cube/src/lib.rs:90-102 | `Front` prints as "Up", `Back` as "Down", `None` as "None" |
| CubeApp.NameConflates | cube/src/lib.rs:90-102 | two tilts print alike exactly when they are equal or are the pairs Front/Up and Back/Down |
| CubeApp.App.constructor | cube/src/lib.rs:206-223 | the menu holds the nine screens and starts on the first |
| CubeApp.App.Tilt | cube/src/lib.rs:236-312 | Right moves to the next screen and Left to the previous, wrapping round; Front opens the current screen and nothing else does; the index stays in range |
| CubeApp.NextIndex | cube/src/lib.rs:291-294 | the index after a Right tilt is the next one modulo the menu length |
| CubeApp.PrevIndex | cube/src/lib.rs:300-303 | the index after a Left tilt is the previous one modulo the menu length |
| CubeApp.TiltsUndo | cube/src/lib.rs:290-307 | a Left tilt undoes a Right tilt, and the other way round |
| CubeApp.MazeSideFromDraw | cube/src/lib.rs:267-274 | the maze side is odd and between 19 and 33 |
| CubeApp.MazeSide | cube/src/lib.rs:267-274 | the same for the side drawn from the hardware random word |
| CubeApp.MazeSideCovers | cube/src/lib.rs:267-274 | every odd side from 19 to 33 can come out; 33 only through a draw of 32, since the draw never returns 33 |
| CubeFace.Wrap | cube/src/face.rs:35-47 | `u8` arithmetic leaves an in-range value unchanged |
| CubeFace.SlackEyePoints | cube/src/face.rs:35-47 | the slack eyes are eight pixel writes |
| CubeFace.SlackFaceLit | cube/src/face.rs:156-161 | the slack face lights exactly its eight eye pixels and its mouth, whatever was on the face before |
| CubeFace.PoutFaceLit | cube/src/face.rs:163-168 | the pout face lights exactly the slack eyes and the pout mouth |
| CubeFace.SlackEyesPlacement | cube/src/face.rs:35-47 | for a face on the screen the eyes sit on rows 7-y and 6-y, columns x, x+1, x+4 and x+5, and nowhere else |
| CubeFace.SlackEyesClippedAtTop | cube/src/face.rs:37-46 | with y = 7 the lower eye row `7 - y - 1` wraps to 255, off the screen, so only the top row of each eye is lit |
| CubeFace.Face.constructor | cube/src/face.rs:9-13 | a blank face |
| CubeFace.Face.SetWork | cube/src/face.rs:16-21 | pixel (x, y) is lit and nothing else changes; off the screen nothing happens |
| CubeFace.Face.ClearWork | cube/src/face.rs:23-28 | pixel (x, y) is flipped, as written, and nothing else changes; off the screen nothing happens |
| CubeFace.Face.Clear | cube/src/face.rs:30-32 | every row is zero |
| CubeFace.Face.SlackEyes | cube/src/face.rs:35-47 | the eight slack eye pixels are lit on top of what was there |
| CubeFace.Face.CloseEyes | cube/src/face.rs:50-61 | the closed-eye pixels are lit on top of what was there |
| CubeFace.Face.LaughEyes | cube/src/face.rs:63-74 | the laughing-eye pixels are lit on top of what was there |
| CubeFace.Face.AngryEyes | cube/src/face.rs:76-89 | the angry-eye pixels are lit on top of what was there |
| CubeFace.Face.SlightlyClosedEyes | cube/src/face.rs:91-104 | the slightly closed eye pixels are lit on top of what was there |
| CubeFace.Face.SlackMouth | cube/src/face.rs:106-110 | the slack mouth pixels are lit on top of what was there |
| CubeFace.Face.PowerlessMouth | cube/src/face.rs:112-118 | the powerless mouth pixels are lit on top of what was there |
| CubeFace.Face.PoutMouth | cube/src/face.rs:120-126 | the pout mouth pixels are lit on top of what was there |
| CubeFace.Face.TerrifyMouth | cube/src/face.rs:128-138 | the terrified mouth pixels are lit on top of what was there |
| CubeFace.Face.LaughMouth | cube/src/face.rs:140-146 | the laughing mouth pixels are lit on top of what was there |
| CubeFace.Face.AngryMouth | cube/src/face.rs:148-154 | the angry mouth pixels are lit on top of what was there |
| CubeFace.Face.SlackFaceAt | cube/src/face.rs:156-161 | the face becomes the slack face, which `SlackFaceLit` describes pixel by pixel |
| CubeFace.Face.PoutFaceAt | cube/src/face.rs:163-168 | the face becomes the pout face, which `PoutFaceLit` describes pixel by pixel |
| CubeFace.SetAllUnfold8 | cube/src/face.rs:35-47 | setting eight pixels as a list is setting them one after the other |
| CubeFace.ClearWorkLightsDarkPixel | cube/src/face.rs:23-28 | on a blank face `clear_work(0, 0)` lights pixel (0, 0), while clearing the bit leaves it dark |
| Ledc.AccStep | src/ledc.rs:153-182 | ORing a term that is column k or nothing into a row lights column x exactly when it was lit or the term is column x |
| Ledc.OrAllLit | src/ledc.rs:153-182 | the terms an inner loop ORs together light column x exactly when term x is present |
| Ledc.UpTerm | src/ledc.rs:156 | `((b >> i) & 1) << (7 - i)` moves column 7 - i of the source row to column i |
| Ledc.RightTerm | src/ledc.rs:165 | `((b & (0x80 >> i)) << i) >> j` moves column i of source row j to column j |
| Ledc.TopShift | src/ledc.rs:165 | `0x80 >> j` is the mask of column j |
| Ledc.LeftTerm | src/ledc.rs:180 | `((b & (1 << i)) >> i) << (7 - j)` moves column 7 - i of its row to column j |
| Ledc.UpRowLit | src/ledc.rs:153-158 | a row of the `Up` picture is its source row mirrored left to right |
| Ledc.RightRowLit | src/ledc.rs:162-167 | in row 7 - i of the `Right` picture, column x is column i of source row x |
| Ledc.LeftRowLit | src/ledc.rs:177-182 | in row 7 - i of the `Left` picture, column x is column 7 - i of source row 7 - x |
| Ledc.UpLit | src/ledc.rs:151-159 | with `Up` the picture is turned through 180 degrees: pixel (x, y) shows source pixel (7 - x, 7 - y) |
| Ledc.RightLit | src/ledc.rs:160-168 | with `Right` it is turned a quarter: pixel (x, y) shows source pixel (7 - y, x) |
| Ledc.LeftLit | src/ledc.rs:175-183 | with `Left` it is turned the other quarter: pixel (x, y) shows source pixel (y, 7 - x) |
| Ledc.UpInvolution | src/ledc.rs:151-159 | the half turn done twice gives the picture back |
| Ledc.RightLeftInverse | src/ledc.rs:160-183 | the `Right` and `Left` turns undo each other |
| Ledc.RightTwiceIsUp | src/ledc.rs:151-168 | two `Right` quarter turns make the `Up` half turn |
| Ledc.ShiftLeftLit | src/ledc.rs:208 | `b << 1` moves every column one to the left and leaves column 7 dark |
| Ledc.ShiftRightLit | src/ledc.rs:201 | `b >> 1` moves every column one to the right and leaves column 0 dark |
| Ledc.RolledUpLit | src/ledc.rs:196-199 | rolling up moves every pixel one row up; the bottom row comes in dark |
| Ledc.RolledRightLit | src/ledc.rs:200-202 | rolling right moves every pixel one column right; column 0 comes in dark |
| Ledc.RolledLeftLit | src/ledc.rs:207-209 | rolling left moves every pixel one column left; column 7 comes in dark |
| Ledc.RolledDownKeepsBottomRow | src/ledc.rs:203-206 | as written, rolling down keeps row 7 as it was, while rows 0 to 6 do move down |
| Ledc.RolledDownLosesRowSix | src/ledc.rs:203-206 | a line on row 6 is lost instead of rolling onto row 7 |
| Ledc.RolledDown | src/ledc.rs:203-206 | the intended roll down moves every pixel one row down, the top row coming in dark |
| Ledc.RollDownThenUp | src/ledc.rs:196-206 | the intended roll down and the roll up undo each other except for the row pushed off the edge |
| Ledc.LedStateWork | src/ledc.rs:123-134 | as written the answer is 1 only for a lit pixel of column 7, because the masked bit is compared with 1; it is always 0 or 1 |
| Ledc.LedStateWorkMissesLitPixel | src/ledc.rs:123-134 | on an all-lit view, pixel (0, 0) is lit but reads as 0 |
| Ledc.LedState | src/ledc.rs:121-134 | the intended reading is 1 exactly for a lit pixel on the frame, and 0 otherwise |
| Ledc.LedControl.constructor | src/ledc.rs:24-35 | both buffers dark and no gravity direction |
| Ledc.LedControl.ClearWork | src/ledc.rs:51-55 | the drawing buffer is dark |
| Ledc.LedControl.Clear | src/ledc.rs:57-62 | the upload buffer is dark |
| Ledc.LedControl.SetLedWork | src/ledc.rs:77-87 | pixel (x, y) of the drawing buffer is lit or darkened, nothing else changes, and off the frame nothing happens |
| Ledc.LedControl.SetLed | src/ledc.rs:90-100 | the same on the upload buffer |
| Ledc.LedControl.BitmapWork | src/ledc.rs:138-140 | the drawing buffer becomes the picture |
| Ledc.LedControl.Bitmap | src/ledc.rs:144-185 | the upload buffer becomes the picture turned for `gd` (unchanged for no direction, as is for `Down`), as `UpLit`, `RightLit` and `LeftLit` describe |
| Ledc.LedControl.UpRow | src/ledc.rs:153-158 | one outer pass writes row j of the half-turned picture and no other row |
| Ledc.LedControl.RightRow | src/ledc.rs:162-167 | one outer pass writes row 7 - i of the `Right` picture and no other row |
| Ledc.LedControl.LeftRow | src/ledc.rs:177-182 | one outer pass writes row 7 - i of the `Left` picture and no other row |
| Ledc.LedControl.Roll | src/ledc.rs:189-211 | the upload buffer moves one pixel towards `gd` as written, with the row 7 defect for `Down` |
| BitFrame.BlankUnlit | cube/src/face.rs:9-13 | a blank frame has no pixel lit |
| BitFrame.SetBitLit | cube/src/face.rs:16-21 | setting lights pixel (x, y) and changes no other pixel |
| BitFrame.SetBitIdempotent | cube/src/face.rs:16-21 | setting the same pixel twice is setting it once |
| BitFrame.ClearBitLit | src/ledc.rs:85 | clearing darkens pixel (x, y) and changes no other pixel |
| BitFrame.ToggleBitLit | cube/src/face.rs:23-28 | toggling flips pixel (x, y) and changes no other pixel |
| BitFrame.ToggleBitTwice | cube/src/face.rs:23-28 | toggling twice gives the frame back |
| BitFrame.ToggleIsClearWhenLit | cube/src/face.rs:23-28 | toggling a pixel equals clearing it exactly when the pixel is lit |
| BitFrame.SetAllLit | cube/src/face.rs:35-154 | after setting a list of pixels a pixel is lit exactly when it was lit before or is on the list |
| BitFrame.SetAllAppend | cube/src/face.rs:156-168 | setting one list and then another is setting the two lists joined |
| BitFrame.SetAllOnBlank | cube/src/face.rs:156-168 | setting a list on a blank frame lights exactly the listed pixels |
| BitFrame.SetPixel | src/ledc.rs:77-87 | one `\|= 1 << (7 - x)` in place behind the range check: exactly `SetBit` |
| BitFrame.ClearPixel | src/ledc.rs:77-87 | one `&= !(1 << (7 - x))` in place behind the range check: exactly `ClearBit` |
| Expressions.AngryEyeOrderSamePixels | src/face.rs:86-99 | the first cube draws the angry eyes in another order but lights the same pixels as the second cube |
| Expressions.RestingFaceLit | src/face.rs:663-665 | the resting face lights its two 2x2 eyes on rows 2 and 3, columns 1, 2, 5 and 6, and its mouth at columns 3 and 4 of row 5, and nothing else |
| Expressions.Face.constructor | src/face.rs:10-17 | a dark face |
| Expressions.Face.Work | src/face.rs:20-38 | state 1 lights and state 0 darkens pixel (x, y), y counted from the bottom; any other state or x > 7 changes nothing |
| Expressions.Face.Clear | src/face.rs:40-42 | every row is dark |
| Expressions.Face.SlackEyes | src/face.rs:45-57 | the same eight eye pixels as the second cube's slack eyes, lit on top of what was there |
| Expressions.Face.CloseEyes | src/face.rs:60-71 | the closed-eye pixels are lit on top of what was there |
| Expressions.Face.LaughEyes | src/face.rs:73-84 | the laughing-eye pixels are lit on top of what was there |
| Expressions.Face.AngryEyes | src/face.rs:86-99 | the angry-eye pixels, in this cube's order, are lit on top of what was there |
| Expressions.Face.SlightlyClosedEyes | src/face.rs:101-114 | the slightly closed eye pixels are lit on top of what was there |
| Expressions.Face.SlackMouth | src/face.rs:116-120 | the slack mouth pixels are lit on top of what was there |
| Expressions.Face.PowerlessMouth | src/face.rs:122-128 | the powerless mouth pixels are lit on top of what was there |
| Expressions.Face.PoutMouth | src/face.rs:130-136 | the pout mouth pixels are lit on top of what was there |
| Expressions.Face.TerrifyMouth | src/face.rs:138-148 | the terrified mouth pixels are lit on top of what was there |
| Expressions.Face.LaughMouth | src/face.rs:150-156 | the laughing mouth pixels are lit on top of what was there |
| Expressions.Face.AngryMouth | src/face.rs:158-164 | the angry mouth pixels are lit on top of what was there |
| Expressions.Face.DormancyFace | src/face.rs:166-681 | whatever the face showed, the dormancy frames end on the resting face |
| Expressions.Face.RouseFace | src/face.rs:684-759 | the rouse frames end on the resting face |
| Expressions.Face.BreakRecordFace | src/face.rs:762-848 | the break-record frames end on slack eyes with a laughing mouth |
| Hourglass.NewPixel | cube/src/timers.rs:97-102 | a new pixel is lit at the given point |
| Hourglass.DefaultPixels | cube/src/timers.rs:18-28 | 32 pixels; pixel i is lit at column i % 8 of row i / 8 |
| Hourglass.DefaultPixelsCover | cube/src/timers.rs:21-25 | every point of the top four rows is lit by exactly one default pixel, the one at index 8y + x |
| Hourglass.DefaultColumns | cube/src/timers.rs:21-25 | every default pixel lies in one of the eight columns and the top four rows |
| Hourglass.ColumnMax | cube/src/timers.rs:55-59 | none exactly when the column has no pixel; otherwise a pixel of that column with the largest y |
| Hourglass.Position | cube/src/timers.rs:60 | none exactly when the pixel is absent; otherwise the index of its first occurrence |
| Hourglass.Last | cube/src/timers.rs:54-61 | none exactly when the column is empty; otherwise the index of a lowest pixel of that column |
| Hourglass.Inverted | cube/src/timers.rs:107 | the same pixel with its colour inverted |
| Hourglass.Blink | cube/src/timers.rs:105-112 | three inversions leave the pixel inverted once |
| Hourglass.Fallen | cube/src/timers.rs:115-120 | the pixel is lit again four rows further down |
| Hourglass.Remove | cube/src/timers.rs:78-83 | one entry fewer; the removed entry and the rest make up the old list |
| Hourglass.Timers.constructor | cube/src/timers.rs:18-28 | the nested loops build the 32 default pixels |
| Hourglass.TakeLowest | cube/src/timers.rs:76-83 | taking a lowest pixel of its column keeps every taken pixel at or below every later-taken and every remaining pixel of its column |
| Hourglass.FallOne | cube/src/timers.rs:73-83 | one round of the falling loop: an empty drawn column is struck, otherwise its lowest pixel is taken and falls blinked; nothing is lost, each taken pixel stays a lowest one of its column, and pixels plus columns left shrink |
| Hourglass.Timers.Run | cube/src/timers.rs:63-87 | the pixels left and those taken make up the starting pixels; each taken pixel was the lowest of its column when taken; each taken pixel falls blinked and four rows down; with enough random words every pixel is taken |
| CubeLedc.WriteBytes | cube/src/ledc.rs:54-68 | 64 pixels, row by row, pixel (x, y) on exactly when bit 7-x of row y is set; no push is lost |
| CubeLedc.Clear | cube/src/ledc.rs:43-45 | all 64 pixels off |
| CubeLedc.Digits | cube/src/ledc.rs:90-91 | the tens and the units of the score: at most 25 and at most 9, with `score == 10 * tens + units` |
| CubeLedc.CombineFrom | cube/src/ledc.rs:95-100 | each remaining row is `(dn[i] \| (sn[i] >> 4)) >> 1` |
| CubeLedc.CombineRows | cube/src/ledc.rs:95-100 | each of the eight rows is `(dn[i] \| (sn[i] >> 4)) >> 1` |
| CubeLedc.Combine | cube/src/ledc.rs:95-100 | the four loops over `buf_work` and `sn` compute the combined rows |
| CubeLedc.CombineLit | cube/src/ledc.rs:95-100 | in the score frame column 0 is dark, columns 1 to 4 show tens columns 0 to 3, and columns 5 to 7 show tens columns 4 to 6 or units columns 0 to 2 |
| CubeLedc.ShiftedBit | cube/src/ledc.rs:95-100 | bit by bit: column x of a combined row is column x - 1 of the tens row or column x - 5 of the units row, and column 0 is dark |
| CubeLedc.DrawScore | cube/src/ledc.rs:87-103 | the pixels written show the combination of the tens glyph and the units glyph |
| Glyphs.BaGuaShape | cube/src/bagua.rs:21-113 | numbers 1 to 8 give three doubled lines, each solid or broken, with dark rows 2 and 5; every other number gives the blank picture |
| Glyphs.BaGuaDistinct | cube/src/bagua.rs:21-113 | two trigram numbers give the same picture exactly when they are equal |
| Glyphs.RandomBaGua | cube/src/bagua.rs:115-118 | the random picture is always one of the eight trigrams, never blank |
| Glyphs.DiceOutside | cube/src/dice.rs:12-76 | the face is blank exactly when the number is not 1 to 6 |
| Glyphs.DiceDistinct | cube/src/dice.rs:12-76 | two pip counts give the same face exactly when they are equal |
| Glyphs.DiceFourGap | cube/src/dice.rs:44-53 | the four-pip face has its two middle rows dark |
| Glyphs.RandomDice | cube/src/dice.rs:78-81 | the random face is always one of the six die faces, never blank |
| DodgeCube.DodgeCubeGame.constructor | cube/src/dodge_cube.rs:35-48 | an 8x8 board, a new red player at (3, 7), 600 ms wait, no score, no best score, game running |
| DodgeCube.DodgeCubeGame.OutsideIsOffScreen | cube/src/dodge_cube.rs:80-82 | on the 8x8 board a point is outside exactly when it is not on the screen |
| DodgeCube.DodgeCubeGame.CalcScore | cube/src/dodge_cube.rs:76-78 | the score goes up by one, wrapping from 255 to 0; nothing else changes |
| DodgeCube.DodgeCubeGame.Tick | cube/src/dodge_cube.rs:54-71 | a round ends the game exactly when it was over, and then the best score becomes the larger of score and best; a running round changes neither score nor player |
| LedLayout.WrapI32 | smart-leds-matrix/src/layout.rs:68-77 | the `i32` wrap-around leaves every value already in `i32` range unchanged |
| LedLayout.New | smart-leds-matrix/src/layout.rs:26-61 | each constructor keeps the size as given, and the layout's axis inversion is the one its constructor names |
| LedLayout.MirrorInRange | smart-leds-matrix/src/layout.rs:67-72 | a mirrored coordinate is in range exactly when the original is, and it is then `size - 1 - c` with no wrap-around |
| LedLayout.MapInRange | smart-leds-matrix/src/layout.rs:66-79 | for all four inversions, `map` returns an index exactly for points inside the matrix, and that index is the mirrored point's row-major number, below `width * height` |
| LedLayout.MapNoInvert | smart-leds-matrix/src/layout.rs:66-79 | with no inversion, `map` is `y * width + x` for points inside the matrix and `None` for the rest |
| LedLayout.MapInjective | smart-leds-matrix/src/layout.rs:66-79 | two different points inside the matrix never map to the same LED |
| LedLayout.MapOnto | smart-leds-matrix/src/layout.rs:66-79 | every LED below `width * height` is where some point inside the matrix maps |
| LedMatrix.Target | smart-leds-matrix/src/lib.rs:81-85 | a pixel is stored only at an index that `map` gives and that is below `N` |
| LedMatrix.DrawnAt | smart-leds-matrix/src/lib.rs:80-88 | after drawing, each LED holds the colour of the last pixel aimed at it, and LEDs no pixel is aimed at keep their colour |
| LedMatrix.SmartLedMatrix.constructor | smart-leds-matrix/src/lib.rs:44-50 | `N` LEDs, all black, full brightness 255, the given layout |
| LedMatrix.SmartLedMatrix.SetBrightness | smart-leds-matrix/src/lib.rs:34-36 | the stored brightness becomes the value given |
| LedMatrix.SmartLedMatrix.Size | smart-leds-matrix/src/lib.rs:95-97 | the drawing target's size is the layout's width and height |
| LedMatrix.SmartLedMatrix.DrawIter | smart-leds-matrix/src/lib.rs:76-91 | the stored LEDs become the result of drawing the pixels in order, later over earlier, dropping pixels off the matrix or beyond `N` |
| LedMatrix.BrightnessRoundTrip | smart-leds-matrix/src/lib.rs:34-40 | `brightness()` after `set_brightness(b)` returns `b` |
| SpiEncoding.PatternsDistinct | ws2812-spi-rs/src/lib.rs:95 | the four SPI patterns are pairwise different |
| SpiEncoding.Unpattern | ws2812-spi-rs/src/lib.rs:95 | an SPI byte decodes to the two bits whose pattern it is, and to nothing when it is none of the four patterns |
| SpiEncoding.EncodeAt | ws2812-spi-rs/src/lib.rs:96-101 | the k-th SPI byte of a colour byte is the pattern of its k-th bit pair, most significant pair first |
| SpiEncoding.EncodeStep | ws2812-spi-rs/src/lib.rs:96-101 | one round of the loop takes the top two bits of the shifted byte, sends their pattern and shifts by two |
| SpiEncoding.DecodeEncode | ws2812-spi-rs/src/lib.rs:91-103 | decoding the four SPI bytes of a colour byte gives the byte back |
| SpiEncoding.EncodeInjective | ws2812-spi-rs/src/lib.rs:91-103 | two colour bytes are sent the same way exactly when they are equal |
| SpiEncoding.EncodeAllAppend | ws2812-spi-rs/src/lib.rs:135-140 | encoding a stream of bytes is encoding its parts one after the other |
| SpiEncoding.DecodeAllEncodeAll | ws2812-spi-rs/src/lib.rs:135-140 | a whole stream of colour bytes survives the trip over the wire |
| SpiEncoding.EncodeAllPrefix | ws2812-spi-rs/src/prerendered.rs:155-160 | the first `4 * i` SPI bytes encode exactly the first `i` colour bytes |
| SpiEncoding.WireLengths | ws2812-spi-rs/src/lib.rs:135-174 | twelve SPI bytes per WS2812 LED and sixteen per SK6812W LED |
| SpiEncoding.RgbStep | ws2812-spi-rs/src/lib.rs:135-140 | one more WS2812 LED adds the encodings of its green, red and blue bytes, in that order |
| SpiEncoding.RgbwStep | ws2812-spi-rs/src/lib.rs:168-174 | one more SK6812W LED adds its green, red, blue and white encodings, in that order |
| SpiEncoding.Zeros | ws2812-spi-rs/src/lib.rs:105-112 | the reset gap: `n` bytes, all zero |
| SpiDirect.Ws2812.constructor | ws2812-spi-rs/src/lib.rs:56-83 | nothing has been written to the bus yet |
| SpiDirect.Ws2812.WriteByte | ws2812-spi-rs/src/lib.rs:91-103 | the bus receives exactly the four SPI bytes of the colour byte |
| SpiDirect.Ws2812.Flush | ws2812-spi-rs/src/lib.rs:105-112 | the bus receives 140 zero bytes |
| SpiDirect.Ws2812.Write | ws2812-spi-rs/src/lib.rs:122-145 | the bus receives the offset byte 0, the reset gap when `mosi_idle_high` is on, the encodings of every LED in green, red, blue order, and the reset gap |
| SpiDirect.Ws2812.WriteRgbw | ws2812-spi-rs/src/lib.rs:155-179 | the same for SK6812W LEDs, with the white channel last |
| SpiPrerendered.Ws2812.constructor | ws2812-spi-rs/src/prerendered.rs:56-90 | rendering starts at the beginning of the caller's buffer |
| SpiPrerendered.Ws2812.WriteByte | ws2812-spi-rs/src/prerendered.rs:98-114 | fewer than four bytes left gives `OutOfBounds` with nothing changed, and a buffer shorter than four panics; otherwise the four SPI bytes go at `index`, which moves on by four, and nothing else in the buffer changes |
| SpiPrerendered.Ws2812.WriteBytes | ws2812-spi-rs/src/prerendered.rs:155-160 | every byte is rendered exactly when they all fit; otherwise rendering stops at the first byte that does not fit, leaving the whole four-byte groups rendered before it; the rest of the buffer is unchanged |
| SpiPrerendered.Ws2812.WriteNext | ws2812-spi-rs/src/prerendered.rs:155-160 | one round of the loop renders the next colour byte behind the ones before it, or stops with nothing changed |
| SpiPrerendered.Ws2812.StoppedData | ws2812-spi-rs/src/prerendered.rs:155-160 | where the loop stops, the buffer holds a prefix of the whole stream's encoding |
| SpiPrerendered.Ws2812.Stopped | ws2812-spi-rs/src/prerendered.rs:104-106 | a byte that does not fit means the whole stream would not fit, and `index` is then the last multiple of four in the buffer |
| SpiPrerendered.Ws2812.Write | ws2812-spi-rs/src/prerendered.rs:148-162 | rendering starts again at 0; it succeeds exactly when twelve bytes per LED fit, and the buffer starts with the prefix of the LEDs' encoding that was rendered |
| SpiPrerendered.Ws2812.WriteRgbw | ws2812-spi-rs/src/prerendered.rs:172-187 | the same for SK6812W LEDs, with sixteen bytes per LED |
| LedStrip.Solid | src/ws2812.rs:58-62 | all twenty LEDs have the one colour |
| LedStrip.TruncDiv | src/ws2812.rs:38-40 | Rust's signed `/`: truncation toward zero for negative dividends |
| LedStrip.ChannelBetween | src/ws2812.rs:32-44 | each gradient channel of LED `i` is `from + delta * i / 19`, truncated, and lies between its two end values: the release-build wrap brings each channel back between them |
| LedStrip.StepBetween | src/ws2812.rs:38-40 | the truncated step `delta * i / 19` lies between 0 and `delta` |
| LedStrip.NoWrap | src/ws2812.rs:38-40 | with the `u8` wrap, adding the `u8` cast of the step is adding the step itself whenever the true sum fits in `u8`, even when the add overflows |
| LedStrip.DecreasingChannelOverflows | src/ws2812.rs:38 | on a decreasing channel a non-zero step is cast to `q + 256`, so `from + q as u8` exceeds 255 and overflows |
| LedStrip.GradientEnds | src/ws2812.rs:32-44 | the gradient starts at `from` and ends at `to` |
| LedStrip.DemoGradient | src/ws2812.rs:221 | the demo's gradient: green stays off and red plus blue stays between 38 and 40 on every LED |
| LedStrip.MaxLevel | src/ws2812.rs:45-51 | the largest wrapped channel sum of a non-empty list, attained by one of its LEDs |
| LedStrip.LevelWraps | src/ws2812.rs:48 | the channel sum wraps in `u8`: full white counts 253, grey 100 counts 44 |
| LedStrip.LightData.Empty | src/ws2812.rs:27-31 | twenty LEDs, all off |
| LedStrip.LightData.Default | src/ws2812.rs:87-93 | twenty LEDs, each `STEPS` on every channel |
| LedStrip.LightData.FromGradient | src/ws2812.rs:32-44 | the LEDs hold the gradient from `from` to `to` |
| LedStrip.LightData.GetBrightness | src/ws2812.rs:45-51 | the largest wrapped channel sum over all LEDs, attained by one of them |
| LedStrip.LightData.SetColor | src/ws2812.rs:72-74 | only LED `index` changes, to `color` |
| LedStrip.LightData.SetRed | src/ws2812.rs:63-65 | only the red channel of LED `index` changes |
| LedStrip.LightData.SetGreen | src/ws2812.rs:66-68 | only the green channel of LED `index` changes |
| LedStrip.LightData.SetBlue | src/ws2812.rs:69-71 | only the blue channel of LED `index` changes |
| LedStrip.LightData.SetColorAll | src/ws2812.rs:58-62 | every LED has the colour |
| LedStrip.ChannelsMakeColor | src/ws2812.rs:63-74 | setting red, green and blue one by one is setting the colour |
| LedStrip.StartupFrames | src/ws2812.rs:150-172 | start-up begins dark, each step lights exactly one more LED, and at the end the top four are red, the next ten green and the last six blue |
| LedStrip.ShutdownFrames | src/ws2812.rs:174-182 | shutdown starts from the strip as it was and ends with every LED off |
| LedStrip.Strip.constructor | src/ws2812.rs:219-224 | the demo's strip: the red-to-blue gradient, brightness 10, nothing sent yet |
| LedStrip.Strip.Write | src/ws2812.rs:184-186 | the current colours are sent as one more frame; nothing else changes |
| LedStrip.Strip.SetColor | src/ws2812.rs:187-190 | only LED `index` changes, and the new frame is sent |
| LedStrip.Strip.SetSolid | src/ws2812.rs:191-194 | every LED has the colour, and that frame is sent |
| LedStrip.Strip.StartupAnimation | src/ws2812.rs:150-172 | the strip ends fully lit in its row colours, after the dark frame and two sends of every step |
| LedStrip.Strip.LightRow | src/ws2812.rs:153-170 | one of the three loops lights its range of LEDs in its colour, sending each step twice |
| LedStrip.Strip.ShutdownAnimation | src/ws2812.rs:174-182 | the LEDs go off from the last to the first, each step sent twice, ending all off |
| Xiaofang.WrapI8 | src/lib.rs:40-44 | `i8` arithmetic as a release build does it: values in range are kept, others are brought back modulo 256 |
| Xiaofang.OppositeHeading | src/lib.rs:84-92 | the opposite heading differs from the original, and its own opposite is the original |
| Xiaofang.Next | src/lib.rs:48-63 | Up and Down change only `y`, by -1 and +1 modulo 256; Left and Right change only `x` the same way |
| Xiaofang.NextIsStep | src/lib.rs:48-63 | away from the `i8` ends, `next` is the one-unit step on the screen with the origin top left |
| Xiaofang.NextOpposite | src/lib.rs:48-92 | a step followed by a step in the opposite direction returns to the start, even across the wrap |
| Xiaofang.WrapBack | src/lib.rs:40-44 | one `i8` increment and one decrement, in either order, cancel out |
| Xiaofang.NextMoves | src/lib.rs:48-63 | a step always changes the position |
| Xiaofang.Position.constructor | src/lib.rs:34-36 | the position holds the two coordinates given |
| Xiaofang.Position.Move | src/lib.rs:37-46 | the position moves to where `next` points |
| Xiaofang.App.constructor | src/lib.rs:190-203 | the menu holds the eight screens and starts on the first |
| Xiaofang.App.Tilt | src/lib.rs:213-263 | right moves to the next screen and left to the previous, modulo 8; up enters the current screen; no tilt or a sideways tilt shows the current screen, up and down show nothing; the index stays in range |
| Xiaofang.TiltsUndo | src/lib.rs:246-261 | a right tilt and then a left tilt, or the other way round, leave the menu where it was |
| SnakeRecord.UnpackPack | src/snake.rs:222-226 | unpacking the packed byte of an on-screen point gives the point back, and the byte is below 64 |
| SnakeRecord.PackUnpack | src/snake.rs:222-226 | every byte below 64 is the packing of its unpacked point |
| SnakeRecord.PackInjective | src/snake.rs:222 | two different on-screen points pack to different bytes |
| SnakeRecord.StartPacks | src/snake.rs:209-222 | the start position (3, 3) packs to 27 and unpacks back |
| SnakeRecord.ZeroAll | src/snake.rs:322-324 | every body entry is 0 |
| SnakeRecord.Snake.constructor | src/snake.rs:199-228 | one segment at (3, 3), both head and tail, heading up, alive, no score, no food, the rest of the body empty |
| SnakeRecord.Snake.Reset | src/snake.rs:319-346 | the snake is back in its start state; the food position, the food flag and `tail_xy_del` keep their values |
| SnakeRecord.Snake.PlaceStart | src/snake.rs:325-334 | the head and the tail are both at (3, 3), stored in the first body entry, the other entries untouched |
| SnakeRecord.Snake.StartIsConsistent | src/snake.rs:222-226 | at the start the head byte, the first body entry and the tail all decode to the head point, and the body holds exactly one segment |

## Left out

- Hardware and I/O:
  - reading the accelerometer, and the floating-point tilt classifiers `acc_direction` and `gravity_direction` (`cube/src/lib.rs:167-199`, `src/lib.rs:155-188`); the tilt is a parameter instead;
  - pushing frames to the MAX7219 and the WS2812 matrix (`write_pixels`, `upload_raw`, `flush`, `set_intensity`); frames are returned or logged instead;
  - flash storage of the best scores (`cube/src/lib.rs:225-234`);
  - the buzzer and its spawned tone tasks (`cube/src/buzzer.rs`);
  - peripheral set-up (`cube/src/main.rs`, `src/main.rs`).
- Time: `Timer::after_millis`, `delay_ms` and the animation pacing. Sequences of frames are kept, not their timing. The `*_animate` face animations of `cube/src/face.rs` are left out; only the net effect of `dormancy_face`, `rouse_face` and `break_record_face` of `src/face.rs` is modelled.
- Floating point:
  - `fade_into` and `set_lightness_percent` of `src/ws2812.rs`;
  - the `speed` fields of the timer pixels;
  - the CubeMan move and fall speeds.
- The Fragile floor's blinking and vanishing timer (`cube/src/cube_man.rs:146-162`): the model treats a Fragile floor like a Normal one.
- Shake detection in the dice and trigram screens: only the picture drawn from a random number is modelled.
- The `draw` methods of the maze, Sokoban and CubeMan games: they only turn map cells into screen pixels through the viewport. The snake's `draw` is modelled.
- Shared static state: the global `RNG`, `BUZZER` and display statics. Each random value is an explicit seed or draw, and the generator's shuffles are the `picks` function.
- `Position::random` in `src/lib.rs:65-72`: it calls the `rand` crate's thread generator, which is not part of this model.
- `mapping::num_map` (the digit glyphs of the score) is not part of this model. `CubeLedc.DrawScore` takes it as a parameter.
- smart_leds `brightness` and `gamma`, used by `flush` and `flush_with_gamma` in `smart-leds-matrix/src/lib.rs:52-69`, are not part of this model.
- SPI errors and `send_data` (`ws2812-spi-rs/src/prerendered.rs:116-138`): the bus never fails in the model. The dummy reads are not logged.
- SpiPrerendered.Ws2812.WriteByte: a write into a buffer shorter than four bytes panics in the source, in debug builds at `len - 4` and in release builds at the out-of-range index after partial writes. The model returns `Panic` and does not model the partial writes.
- LedStrip.Channel: follows the release build. In a debug build the `u8` add of `from_gradient` panics on every decreasing channel with a non-zero step, which the demo gradient's red channel (40 to 0) has from LED 1 on.
- `src/ui.rs` is not part of this model, so the order of `Ui::uis()` on the first cube is unknown; `Xiaofang.App.constructor` takes the eight screens as a parameter.
- `src/timer.rs` and `cube/src/timer.rs` are not declared as modules of their crates. `cube/src/timers.rs` is the one that is modelled.
- `key_direction`, `move`, `reset_body` and `food_create` of `src/snake.rs`: their bodies are commented out and do nothing.
- The `Strip::get_brightness` wrapper of `src/ws2812.rs:195-197`: it discards its result. `LightData::get_brightness` is modelled.
- `FloorGen::floors` (`cube/src/cube_man.rs:332-364`): nothing calls it.
- `SokobanMap::new` and `from_lurd` (`cube/src/sokoban.rs:237-239`, `cube/src/sokoban.rs:296-298`): both are `unimplemented!()`.
- Termination of the retry loops: the start sampling and `cal_epos` of `cube/src/maze.rs`, and `create_food` of `cube/src/snake.rs`, loop until a random value fits. Each takes a finite list of draws and reports when the list runs out.
- Source requirements that are panics in the code and are stated as `requires`:
  - Expressions.Face.Work: requires `y <= 7`, because `ram[7 - y]` is computed before the range check and `7 - y` underflows for larger `y`;
  - Expressions.Face.SlackEyes: requires `y <= 6`, for the same reason on row `6 - y`;
  - MazeGen.Maze.Generate and Irrgarten.Maze.Generate: require `width >= 2` and `height >= 2`, because carving starts by indexing tile (1, 1);
  - MazeGame.MazeMap.constructor: requires a square grid of side at least 2, because the generated grid is indexed `[x][y]` but read as `maze[y][x]`;
  - MazeGame.MazeMap.CalEpos, MazeGame.SampleStart and MazeGame.NewMaze: require sides from 3 to 2^32 - 1, so that the `random_range` calls get a non-empty `u32` range that does not panic;
  - LedStrip.LightData.GetLed, LedStrip.LightData.SetColor and the channel setters: require the index to be below 20, because an index past the end panics.

## Findings

| source | as written | input that shows it | evidently intended | confidence | as-written member | corrected member |
|---|---|---|---|---|---|---|
| cube_rand/src/lib.rs:57-58 | `random_range` draws `low + u % (high - low)`, so an inclusive end `a..=b` never yields `b`, and `a..=a` divides by zero | `random_range(19..=33)` never gives 33 | the span of `[low, high]` is `high - low + 1` | not executed | CubeRand.InclusiveEndUnreachable | CubeRand.FixedRangeCovers |
| cube/src/face.rs:23-28 | `clear_work` XORs the bit, so on a dark pixel it lights it | `clear_work(0, 0)` on a blank face lights pixel (0, 0) | clear the bit with `& !mask` | not executed | CubeFace.ClearWorkLightsDarkPixel | BitFrame.ClearBitLit |
| src/ledc.rs:123-134 | `get_led_state_work` compares `view[y] & mask` with 1, which only column 7 can equal | pixel (0, 0) of an all-lit frame reads 0 | report 1 whenever the masked bit is non-zero | not executed | Ledc.LedStateWorkMissesLitPixel | Ledc.LedState |
| src/ledc.rs:203-206 | `roll(Down)` copies rows 5..0 into 6..1 and leaves row 7 as it was | a line on row 6 is not moved to row 7 | move rows 6..0 into 7..1 | not executed | Ledc.RolledDownLosesRowSix | Ledc.RolledDown |
| cube/src/cube_man.rs:173-177 | the counter-clockwise conveyor tests `x - 1 < 8`, which always holds | a man at x = 0 is carried to x = -1, off the screen | clamp with `x - 1 >= 0` | not executed | CubeMan.ConveyorLeavesScreen | CubeMan.FixedConveyorStays |
