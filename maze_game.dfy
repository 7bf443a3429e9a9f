/**
 * `cube/src/maze.rs`: the maze game.  A generated maze becomes a list of
 * wall cells, the player starts on a random free cell, the goal is another
 * random free cell, and each tick moves the player unless a wall or the
 * border is in the way.
 */
module MazeGame {
  import opened Common
  import Wrappers
  import Carving
  import MazeGen
  import CubeRand
  import opened MapView
  import opened Players

  /** Some cell of the list is at `p`: `data.iter().any(|c| c.0.0 == p)`. */
  predicate Occupied<T>(cells: seq<Cell<T>>, p: Point)
  {
    exists i | 0 <= i < |cells| :: cells[i].pos == p
  }

  /** `hit_wall` for the next position: on or outside the border ring, or on a wall cell. */
  predicate HitWall(m: Map<()>, p: Point)
  {
    p.x <= 0 || p.y <= 0 || p.x >= m.width - 1 || p.y >= m.height - 1 || Occupied(m.data, p)
  }

  /** Where a player may stand: strictly inside the border ring and not on a wall. */
  predicate Free(m: Map<()>, p: Point)
  {
    0 < p.x < m.width - 1 && 0 < p.y < m.height - 1 && !Occupied(m.data, p)
  }

  /** A position that does not hit a wall is free. */
  lemma NoHitIsFree(m: Map<()>, p: Point)
    ensures !HitWall(m, p) <==> Free(m, p)
  {
  }

  /** The wall cell `MazeMap::new` pushes for grid row y, column x. */
  function WallCell(x: int, y: int): Cell<()>
  {
    Cell(Point(x, y), CssWhite, ())
  }

  /**
   * The cells pushed for row y, columns `0..n`: one for each x with
   * `maze[y][x] == 1`, i.e. `data[y][x]` of the generated grid.
   */
  function RowWalls(g: Carving.Grid, y: nat, n: nat): seq<Cell<()>>
    requires y < |g| && n <= |g[y]|
  {
    if n == 0 then []
    else RowWalls(g, y, n - 1) + (if g[y][n - 1] == Carving.TileWall then [WallCell(n - 1, y)] else [])
  }

  /** The cells pushed for rows `0..n`, row by row. */
  function WallList(g: Carving.Grid, n: nat, w: nat): seq<Cell<()>>
    requires n <= |g| && forall y | 0 <= y < n :: w <= |g[y]|
  {
    if n == 0 then [] else WallList(g, n - 1, w) + RowWalls(g, n - 1, w)
  }

  /** Point p is a wall of rows `0..n`, columns `0..w`, reading `g[y][x]`. */
  predicate WallOf(g: Carving.Grid, n: nat, w: nat, p: Point)
    requires n <= |g| && forall y | 0 <= y < n :: w <= |g[y]|
  {
    0 <= p.y < n && 0 <= p.x < w && g[p.y][p.x] == Carving.TileWall
  }

  lemma {:induction false} RowWallsMembers(g: Carving.Grid, y: nat, n: nat)
    requires y < |g| && n <= |g[y]|
    ensures forall i | 0 <= i < |RowWalls(g, y, n)| ::
              var p := RowWalls(g, y, n)[i].pos;
              p.y == y && 0 <= p.x < n && g[y][p.x] == Carving.TileWall
    ensures forall x | 0 <= x < n && g[y][x] == Carving.TileWall :: Occupied(RowWalls(g, y, n), Point(x, y))
  {
    if n > 0 {
      RowWallsMembers(g, y, n - 1);
      var r: seq<Cell<()>> := RowWalls(g, y, n - 1);
      var t: seq<Cell<()>> := if g[y][n - 1] == Carving.TileWall then [WallCell(n - 1, y)] else [];
      assert RowWalls(g, y, n) == r + t;
      forall x | 0 <= x < n && g[y][x] == Carving.TileWall
        ensures Occupied(r + t, Point(x, y))
      {
        if x < n - 1 {
          var i :| 0 <= i < |r| && r[i].pos == Point(x, y);
          assert (r + t)[i] == r[i];
        } else {
          assert (r + t)[|r|] == WallCell(x, y);
        }
      }
    }
  }

  /**
   * The wall list has a cell at (x, y) exactly when `maze[y][x] == 1`, and only
   * inside `[0, w) x [0, n)`.
   */
  lemma {:induction false} WallListMembers(g: Carving.Grid, n: nat, w: nat)
    requires n <= |g| && forall y | 0 <= y < n :: w <= |g[y]|
    ensures forall i | 0 <= i < |WallList(g, n, w)| :: WallOf(g, n, w, WallList(g, n, w)[i].pos)
    ensures forall x, y | 0 <= x < w && 0 <= y < n && g[y][x] == Carving.TileWall ::
              Occupied(WallList(g, n, w), Point(x, y))
  {
    if n > 0 {
      WallListMembers(g, n - 1, w);
      RowWallsMembers(g, n - 1, w);
      var a: seq<Cell<()>> := WallList(g, n - 1, w);
      var b: seq<Cell<()>> := RowWalls(g, n - 1, w);
      assert WallList(g, n, w) == a + b;
      forall i | 0 <= i < |a + b|
        ensures WallOf(g, n, w, (a + b)[i].pos)
      {
        if i < |a| {
          assert (a + b)[i] == a[i];
        } else {
          assert (a + b)[i] == b[i - |a|];
        }
      }
      forall x, y | 0 <= x < w && 0 <= y < n && g[y][x] == Carving.TileWall
        ensures Occupied(a + b, Point(x, y))
      {
        if y < n - 1 {
          var i :| 0 <= i < |a| && a[i].pos == Point(x, y);
          assert (a + b)[i] == a[i];
        } else {
          var i :| 0 <= i < |b| && b[i].pos == Point(x, y);
          assert (a + b)[|a| + i] == b[i];
        }
      }
    }
  }

  /** Square grids only: `maze[y][x]` indexes column y of the generated grid. */
  lemma WallListIsGrid(g: Carving.Grid, w: nat)
    requires Carving.WellShaped(g, w, w)
    ensures forall p: Point :: Occupied(WallList(g, w, w), p) <==>
              0 <= p.x < w && 0 <= p.y < w && Carving.Get(g, Carving.Vec2(p.y, p.x)) == Carving.TileWall
  {
    WallListMembers(g, w, w);
  }

  /** `MazeMap`: the wall cells, the start and the goal. */
  class MazeMap {
    /** The generated maze the wall list was read from, indexed `grid[x][y]` as the maze crate stores it. */
    ghost var grid: Carving.Grid
    var board: Map<()>
    var color: Rgb
    var spos: Point
    var epos: Point
    var colorEpos: Rgb

    /**
     * `MazeMap::new`: generate a square maze (`picks` stands for the
     * generator's shuffles) and push a white wall cell for every
     * `maze[y][x] == 1`, rows first.
     */
    constructor (width: nat, height: nat, picks: nat -> nat)
      requires width == height && width >= 2
      ensures board.width == width && board.height == height
      ensures Carving.WellShaped(grid, width, height)
      ensures board.data == WallList(grid, height, width)
      ensures forall i | 0 <= i < |board.data| ::
                0 <= board.data[i].pos.x < width && 0 <= board.data[i].pos.y < height
      ensures forall p: Point :: Occupied(board.data, p) <==>
                0 <= p.x < width && 0 <= p.y < height && Carving.Get(grid, Carving.Vec2(p.y, p.x)) == Carving.TileWall
      ensures forall p | Carving.InGrid(p, width, height) && Carving.Get(grid, p) == Carving.TileFloor ::
                Carving.OnLattice(p, width, height) && Carving.Reachable(grid, width, height, p)
      ensures forall p | Carving.InGrid(p, width, height) && !Carving.OnLattice(p, width, height) ::
                Carving.Get(grid, p) == Carving.TileWall
      ensures width % 2 == 1 ==>
                forall p | Carving.InGrid(p, width, height) && Carving.OnBorder(p, width, height) ::
                  Carving.Get(grid, p) == Carving.TileWall
      ensures spos == Point(0, 0) && epos == Point(0, 0)
      ensures color == CssWhite && colorEpos == CssGreen
    {
      var maze := new MazeGen.Maze(width, height);
      maze.Generate(picks);
      var g := maze.data;
      grid := g;
      var cells: seq<Cell<()>> := [];
      for y := 0 to height
        invariant cells == WallList(g, y, width)
      {
        for x := 0 to width
          invariant cells == WallList(g, y, width) + RowWalls(g, y, x)
        {
          if g[y][x] == 1 {
            cells := cells + [WallCell(x, y)];
          }
        }
      }
      WallListMembers(g, height, width);
      WallListIsGrid(g, width);
      board := Map(width, height, cells);
      color := CssWhite;
      spos := Point(0, 0);
      epos := Point(0, 0);
      colorEpos := CssGreen;
    }

    /**
     * `cal_epos`: draw x from `random_range(0..width-1)` and y likewise until
     * the cell is neither a wall nor the start.  `seeds` are the hardware
     * draws that seed each `CubeRng`; `found` is false only if they run out.
     */
    method CalEpos(seeds: seq<(CubeRand.U64, CubeRand.U64)>) returns (found: bool)
      requires 3 <= board.width < CubeRand.Two32 && 3 <= board.height < CubeRand.Two32
      modifies this
      ensures board == old(board) && spos == old(spos) && grid == old(grid)
      ensures found ==> !Occupied(board.data, epos) && epos != spos &&
                        0 <= epos.x < board.width - 2 && 0 <= epos.y < board.height - 2
      ensures !found ==> epos == old(epos)
    {
      var k := 0;
      while k < |seeds|
        invariant 0 <= k <= |seeds|
        invariant board == old(board) && spos == old(spos) && epos == old(epos) && grid == old(grid)
      {
        CubeRand.ExclusiveRange(0, board.width - 1, CubeRand.Lcg(seeds[k].0) % CubeRand.Two32);
        CubeRand.ExclusiveRange(0, board.height - 1, CubeRand.Lcg(seeds[k].1) % CubeRand.Two32);
        var x := CubeRand.RangeFrom(seeds[k].0, CubeRand.Included(0), CubeRand.Excluded(board.width - 1)).v;
        var y := CubeRand.RangeFrom(seeds[k].1, CubeRand.Included(0), CubeRand.Excluded(board.height - 1)).v;
        if !Occupied(board.data, Point(x, y)) && spos != Point(x, y) {
          epos := Point(x, y);
          return true;
        }
        k := k + 1;
      }
      return false;
    }
  }

  /**
   * The start loop of `Maze::new`: x from `random_range(1..width)`, y from
   * `random_range(1..height)`, until the cell is not a wall.
   */
  method SampleStart(m: Map<()>, seeds: seq<(CubeRand.U64, CubeRand.U64)>) returns (r: Wrappers.Option<Point>)
    requires 3 <= m.width < CubeRand.Two32 && 3 <= m.height < CubeRand.Two32
    ensures r.Some? ==> Free(m, r.value)
  {
    var k := 0;
    while k < |seeds|
      invariant 0 <= k <= |seeds|
    {
      CubeRand.ExclusiveRange(1, m.width, CubeRand.Lcg(seeds[k].0) % CubeRand.Two32);
      CubeRand.ExclusiveRange(1, m.height, CubeRand.Lcg(seeds[k].1) % CubeRand.Two32);
      var x := CubeRand.RangeFrom(seeds[k].0, CubeRand.Included(1), CubeRand.Excluded(m.width)).v;
      var y := CubeRand.RangeFrom(seeds[k].1, CubeRand.Included(1), CubeRand.Excluded(m.height)).v;
      if !Occupied(m.data, Point(x, y)) {
        return Wrappers.Some(Point(x, y));
      }
      k := k + 1;
    }
    return Wrappers.None;
  }

  class Maze {
    const world: MazeMap
    const player: Player
    const vision: Vision<()>
    var waitingTime: nat
    var gameOver: bool

    /**
     * The player stands on a free cell, the goal is free and apart from the
     * start, and the vision holds exactly the cells of its window.
     */
    ghost predicate Valid()
      reads this, world, player, vision
    {
      Free(world.board, player.pos) &&
      !Occupied(world.board.data, world.epos) && world.epos != world.spos &&
      vision.data == Window(world.board, vision.pos)
    }

    /**
     * The body of `Maze::new` once the start is chosen: the player there,
     * the vision placed around it and filled, `spos` set to the start.
     */
    constructor (m: MazeMap, start: Point)
      modifies m
      ensures world == m && player.pos == start && fresh(player) && fresh(vision)
      ensures m.spos == start && m.board == old(m.board) && m.epos == old(m.epos) && m.grid == old(m.grid)
      ensures vision.data == Window(m.board, vision.pos)
      ensures waitingTime == 300 && !gameOver
    {
      world := m;
      player := new Player(start);
      var v := new Vision<()>(m.board.width, m.board.height, start);
      v.UpdateData(m.board);
      vision := v;
      waitingTime := 300;
      gameOver := false;
      new;
      m.spos := player.pos;
    }

    /**
     * One tick of `run` after the tilt is read: stop if the game is over;
     * otherwise, unless the next position hits a wall, move the player, and
     * on a real move shift the vision and end the game on the goal.
     */
    method Tick(d: Direction) returns (finished: bool)
      requires Valid()
      modifies this, player, vision
      ensures Valid()
      ensures finished == old(gameOver)
      ensures old(gameOver) || HitWall(world.board, Step(old(player.pos), d)) ==>
                player.pos == old(player.pos) && vision.pos == old(vision.pos) &&
                vision.data == old(vision.data) && gameOver == old(gameOver)
      ensures !old(gameOver) && !HitWall(world.board, Step(old(player.pos), d)) ==>
                player.pos == Step(old(player.pos), d) &&
                (d == None ==> vision.pos == old(vision.pos) && vision.data == old(vision.data) && !gameOver) &&
                (d != None ==>
                   gameOver == (player.pos == world.epos) &&
                   vision.pos == (if Accepts(world.board.width, world.board.height, Step(old(vision.pos), d))
                                  then Step(old(vision.pos), d) else old(vision.pos)))
    {
      if gameOver {
        return true;
      }
      finished := false;
      var next := player.NextPos(d);
      var hit := next.x <= 0 || next.y <= 0 || next.x >= world.board.width - 1 || next.y >= world.board.height - 1
                 || Occupied(world.board.data, next);
      if !hit {
        var moved := player.Move(d);
        if moved {
          vision.Update(d, world.board);
          if player.pos == world.epos {
            gameOver := true;
          }
        }
      }
    }
  }

  /**
   * `Maze::new(width, width)`: build the map, sample the start, create the
   * game and draw the goal.  `picks` stands for the generator's shuffles,
   * the seed lists for the hardware draws; `None` only when they run out.
   */
  method NewMaze(width: nat, picks: nat -> nat,
                 startSeeds: seq<(CubeRand.U64, CubeRand.U64)>,
                 endSeeds: seq<(CubeRand.U64, CubeRand.U64)>) returns (r: Wrappers.Option<Maze>)
    requires 3 <= width < CubeRand.Two32
    ensures r.Some? ==> r.value.Valid() && !r.value.gameOver &&
                        r.value.world.spos == r.value.player.pos &&
                        r.value.world.board.width == width && r.value.world.board.height == width &&
                        Carving.WellShaped(r.value.world.grid, width, width) &&
                        r.value.world.board.data == WallList(r.value.world.grid, width, width)
  {
    var m := new MazeMap(width, width, picks);
    var start := SampleStart(m.board, startSeeds);
    if start.None? {
      return Wrappers.None;
    }
    var g := new Maze(m, start.value);
    var found := m.CalEpos(endSeeds);
    if !found {
      return Wrappers.None;
    }
    return Wrappers.Some(g);
  }
}
