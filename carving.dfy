/**
 * The iterative recursive-backtracker shared by the `maze` and `irrgarten`
 * crates: the column-major tile grid, the four carving directions, the
 * injected shuffle, the push step of the carving loop, and the facts the
 * carving loop keeps (a spanning tree over the carved tiles, the odd-cell
 * lattice, the wall count that measures termination).
 */
module Carving {

  const TileFloor: int := 0
  const TileWall: int := 1

  /** The tile grid as both crates store it: `data[x][y]`, one column per x. */
  type Grid = seq<seq<int>>

  datatype Dir4 = North | East | South | West

  const AllDirs: seq<Dir4> := [North, East, South, West]

  /** The crates' `TinyVec` (an `isize` pair; the model's ints do not overflow). */
  datatype Vec2 = Vec2(x: int, y: int)

  /** A stack entry `(path, cell)`: the tile to open and the cell it leads to. */
  type Entry = (Vec2, Vec2)

  const Start: Vec2 := Vec2(1, 1)

  function Plus(a: Vec2, b: Vec2): Vec2
  {
    Vec2(a.x + b.x, a.y + b.y)
  }

  function Times(a: Vec2, k: int): Vec2
  {
    Vec2(a.x * k, a.y * k)
  }

  /** The unit step of a direction: North is y-1, East x+1, South y+1, West x-1. */
  function StepOf(d: Dir4): (s: Vec2)
    ensures (s.x == 0) != (s.y == 0)
    ensures -1 <= s.x <= 1 && -1 <= s.y <= 1
  {
    match d
    case North => Vec2(0, -1)
    case East => Vec2(1, 0)
    case South => Vec2(0, 1)
    case West => Vec2(-1, 0)
  }

  /** Two tiles that share an edge. */
  predicate Adjacent(a: Vec2, b: Vec2)
  {
    (a.x == b.x && (a.y - b.y == 1 || b.y - a.y == 1)) ||
    (a.y == b.y && (a.x - b.x == 1 || b.x - a.x == 1))
  }

  /**
   * `dirs.shuffle(rng)`: the generator is outside the model, so the k-th
   * shuffle is given by a number that selects one of the orders of `s`
   * (a Lehmer code).  Whatever number is drawn, the result is a permutation.
   */
  function Shuffle<T>(s: seq<T>, k: nat): (r: seq<T>)
    ensures multiset(r) == multiset(s)
    ensures |r| == |s|
    decreases |s|
  {
    if |s| == 0 then []
    else
      var i := k % |s|;
      assert s == s[..i] + [s[i]] + s[i + 1..];
      [s[i]] + Shuffle(s[..i] + s[i + 1..], k / |s|)
  }

  // ---------------------------------------------------------------- the grid

  predicate WellShaped(g: Grid, w: nat, h: nat)
  {
    |g| == w && forall x | 0 <= x < w :: |g[x]| == h
  }

  predicate InGrid(p: Vec2, w: nat, h: nat)
  {
    0 <= p.x < w && 0 <= p.y < h
  }

  function Get(g: Grid, p: Vec2): int
    requires 0 <= p.x < |g| && 0 <= p.y < |g[p.x]|
  {
    g[p.x][p.y]
  }

  /** `data[p.x][p.y] = v`. */
  function Set(g: Grid, p: Vec2, v: int): (r: Grid)
    requires 0 <= p.x < |g| && 0 <= p.y < |g[p.x]|
    ensures |r| == |g|
    ensures forall x | 0 <= x < |g| :: |r[x]| == |g[x]|
    ensures forall q: Vec2 | 0 <= q.x < |g| && 0 <= q.y < |g[q.x]| ::
              Get(r, q) == if q == p then v else Get(g, q)
  {
    g[p.x := g[p.x][p.y := v]]
  }

  predicate AllWall(g: Grid, w: nat, h: nat)
    requires WellShaped(g, w, h)
  {
    forall x, y | 0 <= x < w && 0 <= y < h :: g[x][y] == TileWall
  }

  /** `vec![vec![TILE_WALL; h]; w]` */
  function Filled(w: nat, h: nat): (g: Grid)
    ensures WellShaped(g, w, h) && AllWall(g, w, h)
  {
    seq(w, _ => seq(h, _ => TileWall))
  }

  function CountCol(c: seq<int>): nat
  {
    if c == [] then 0 else (if c[0] == TileWall then 1 else 0) + CountCol(c[1..])
  }

  /** Number of wall tiles: the loop's termination measure. */
  function WallCount(g: Grid): nat
  {
    if g == [] then 0 else CountCol(g[0]) + WallCount(g[1..])
  }

  lemma {:induction false} CountColUpdate(c: seq<int>, y: nat, v: int)
    requires y < |c| && v != TileWall
    ensures CountCol(c[y := v]) == CountCol(c) - (if c[y] == TileWall then 1 else 0)
    decreases y
  {
    if y > 0 {
      assert c[y := v][1..] == c[1..][y - 1 := v];
      CountColUpdate(c[1..], y - 1, v);
    } else {
      assert c[y := v][1..] == c[1..];
    }
  }

  lemma {:induction false} WallCountColumn(g: Grid, x: nat, c: seq<int>)
    requires x < |g|
    ensures WallCount(g[x := c]) == WallCount(g) - CountCol(g[x]) + CountCol(c)
    decreases x
  {
    if x > 0 {
      assert g[x := c][1..] == g[1..][x - 1 := c];
      WallCountColumn(g[1..], x - 1, c);
    } else {
      assert g[x := c][1..] == g[1..];
    }
  }

  /** Writing a non-wall value removes a wall exactly when the tile was one. */
  lemma WallCountSet(g: Grid, p: Vec2, v: int)
    requires 0 <= p.x < |g| && 0 <= p.y < |g[p.x]| && v != TileWall
    ensures WallCount(Set(g, p, v)) == WallCount(g) - (if Get(g, p) == TileWall then 1 else 0)
  {
    CountColUpdate(g[p.x], p.y, v);
    WallCountColumn(g, p.x, g[p.x][p.y := v]);
  }

  // ------------------------------------------------------------- the lattice

  /** A cell the carving walks through: in the grid, both coordinates odd. */
  predicate OddCell(p: Vec2, w: nat, h: nat)
  {
    InGrid(p, w, h) && p.x % 2 == 1 && p.y % 2 == 1
  }

  /**
   * Where a carved tile can be: strictly inside the left and top border,
   * never with both coordinates even, and one short of the right (bottom)
   * edge whenever its x (y) is even.
   */
  predicate OnLattice(p: Vec2, w: nat, h: nat)
  {
    1 <= p.x < w && 1 <= p.y < h &&
    (p.x % 2 == 1 || p.y % 2 == 1) &&
    (p.x % 2 == 0 ==> p.x + 1 < w) &&
    (p.y % 2 == 0 ==> p.y + 1 < h)
  }

  /** For odd dimensions the lattice avoids the outer ring entirely. */
  lemma LatticeAvoidsBorder(p: Vec2, w: nat, h: nat)
    requires w % 2 == 1 && h % 2 == 1
    requires OnLattice(p, w, h)
    ensures 0 < p.x < w - 1 && 0 < p.y < h - 1
  {
  }

  /** On the outer ring of an odd-sized grid. */
  predicate OnBorder(p: Vec2, w: nat, h: nat)
  {
    p.x == 0 || p.y == 0 || p.x == w - 1 || p.y == h - 1
  }

  /**
   * Starting from all walls, a carving that only opens lattice tiles leaves
   * every other tile a wall; for odd dimensions that includes the outer ring.
   */
  lemma KeptWalls(g: Grid, g0: Grid, w: nat, h: nat)
    requires WellShaped(g, w, h) && WellShaped(g0, w, h) && AllWall(g0, w, h)
    requires forall p | InGrid(p, w, h) :: Get(g, p) == Get(g0, p) || Get(g, p) == TileFloor
    requires forall p | InGrid(p, w, h) && Get(g, p) == TileFloor :: OnLattice(p, w, h)
    ensures forall p | InGrid(p, w, h) && !OnLattice(p, w, h) :: Get(g, p) == TileWall
    ensures w % 2 == 1 && h % 2 == 1 ==>
              forall p | InGrid(p, w, h) && OnBorder(p, w, h) :: Get(g, p) == TileWall
  {
    forall p | InGrid(p, w, h) && !OnLattice(p, w, h)
      ensures Get(g, p) == TileWall
    {
      assert Get(g0, p) == g0[p.x][p.y];
    }
    if w % 2 == 1 && h % 2 == 1 {
      forall p | InGrid(p, w, h) && OnBorder(p, w, h)
        ensures !OnLattice(p, w, h)
      {
        if OnLattice(p, w, h) {
          LatticeAvoidsBorder(p, w, h);
        }
      }
    }
  }

  /** The cell that pushed an entry: `path` is the midpoint of it and `cell`. */
  function Mirror(e: Entry): Vec2
  {
    Vec2(2 * e.0.x - e.1.x, 2 * e.0.y - e.1.y)
  }

  // ----------------------------------------------------------------- the tree

  /**
   * The carved tiles form a tree rooted at Start: each is a floor tile in the
   * grid, and each other than Start has an adjacent carved parent of smaller
   * depth.
   */
  ghost predicate Tree(g: Grid, w: nat, h: nat, dep: map<Vec2, nat>, par: map<Vec2, Vec2>)
  {
    WellShaped(g, w, h) &&
    (forall p | p in dep :: InGrid(p, w, h) && Get(g, p) == TileFloor) &&
    (forall p | p in dep && p != Start ::
       p in par && par[p] in dep && Adjacent(p, par[p]) && dep[par[p]] < dep[p])
  }

  /** A walk over floor tiles that starts at Start and steps between adjacent tiles. */
  ghost predicate FloorWalk(g: Grid, w: nat, h: nat, walk: seq<Vec2>)
  {
    WellShaped(g, w, h) && |walk| > 0 && walk[0] == Start &&
    (forall i | 0 <= i < |walk| :: InGrid(walk[i], w, h) && Get(g, walk[i]) == TileFloor) &&
    (forall i | 0 < i < |walk| :: Adjacent(walk[i - 1], walk[i]))
  }

  /** `p` is 4-connected to Start through floor tiles. */
  ghost predicate Reachable(g: Grid, w: nat, h: nat, p: Vec2)
  {
    exists walk :: FloorWalk(g, w, h, walk) && walk[|walk| - 1] == p
  }

  /** Following parents from any carved tile reaches Start, giving the walk. */
  lemma {:induction false} TreeWalk(g: Grid, w: nat, h: nat, dep: map<Vec2, nat>,
                                    par: map<Vec2, Vec2>, p: Vec2) returns (walk: seq<Vec2>)
    requires Tree(g, w, h, dep, par) && p in dep
    ensures FloorWalk(g, w, h, walk) && walk[|walk| - 1] == p
    decreases dep[p]
  {
    if p == Start {
      walk := [Start];
    } else {
      var prefix := TreeWalk(g, w, h, dep, par, par[p]);
      walk := prefix + [p];
      assert walk[..|prefix|] == prefix;
    }
  }

  lemma TreeReachable(g: Grid, w: nat, h: nat, dep: map<Vec2, nat>, par: map<Vec2, Vec2>)
    requires Tree(g, w, h, dep, par)
    ensures forall p | p in dep :: Reachable(g, w, h, p)
  {
    forall p | p in dep
      ensures Reachable(g, w, h, p)
    {
      var walk := TreeWalk(g, w, h, dep, par, p);
    }
  }

  // ------------------------------------------------------------ stack entries

  /**
   * What the carving loop knows of each stacked entry: the cell is an odd
   * cell, and either this is the initial `(start, start)` or `path` lies
   * between `cell` and an already carved odd cell.
   */
  ghost predicate EntryOk(w: nat, h: nat, dep: map<Vec2, nat>, e: Entry)
  {
    OddCell(e.1, w, h) &&
    (e == (Start, Start) || (Adjacent(e.0, e.1) && Mirror(e) in dep && OddCell(Mirror(e), w, h)))
  }

  /** Both tiles an accepted entry opens lie on the lattice. */
  lemma EntryOnLattice(w: nat, h: nat, dep: map<Vec2, nat>, e: Entry)
    requires w >= 2 && h >= 2
    requires EntryOk(w, h, dep, e)
    ensures OnLattice(e.0, w, h) && OnLattice(e.1, w, h)
    ensures e != (Start, Start) ==> e.0 != Start && e.0 != e.1
  {
  }

  /** Entries stay acceptable as the carved set grows. */
  lemma EntriesGrow(w: nat, h: nat, dep: map<Vec2, nat>, dep': map<Vec2, nat>, stack: seq<Entry>)
    requires forall p | p in dep :: p in dep'
    requires forall i | 0 <= i < |stack| :: EntryOk(w, h, dep, stack[i])
    ensures forall i | 0 <= i < |stack| :: EntryOk(w, h, dep', stack[i])
  {
  }

  /** The tree after an entry is carved: `path` (if new) hangs off the mirror, `cell` off `path`. */
  ghost function Grow(dep: map<Vec2, nat>, par: map<Vec2, Vec2>, e: Entry): (map<Vec2, nat>, map<Vec2, Vec2>)
    requires e == (Start, Start) || Mirror(e) in dep
  {
    GrowCell(GrowPath(dep, par, e), e)
  }

  /** `cell`, if new, hangs off `path`, which is already carved. */
  ghost function GrowCell(t: (map<Vec2, nat>, map<Vec2, Vec2>), e: Entry): (map<Vec2, nat>, map<Vec2, Vec2>)
    requires e.0 in t.0
  {
    if e.1 in t.0 then t else (t.0[e.1 := t.0[e.0] + 1], t.1[e.1 := e.0])
  }

  ghost function GrowPath(dep: map<Vec2, nat>, par: map<Vec2, Vec2>, e: Entry): (t: (map<Vec2, nat>, map<Vec2, Vec2>))
    requires e == (Start, Start) || Mirror(e) in dep
    ensures e.0 in t.0
  {
    if e.0 in dep then (dep, par)
    else if e == (Start, Start) then (dep[Start := 0], par)
    else (dep[e.0 := dep[Mirror(e)] + 1], par[e.0 := Mirror(e)])
  }

  /** The grid after an entry is carved: `data[path] = FLOOR; data[cell] = FLOOR`. */
  function Carve(g: Grid, e: Entry): Grid
    requires 0 <= e.0.x < |g| && 0 <= e.0.y < |g[e.0.x]|
    requires 0 <= e.1.x < |g| && 0 <= e.1.y < |g[e.1.x]|
  {
    Set(Set(g, e.0, TileFloor), e.1, TileFloor)
  }

  /** Opening a tile never disturbs the tree. */
  lemma TreeSurvivesFloor(g: Grid, w: nat, h: nat, dep: map<Vec2, nat>, par: map<Vec2, Vec2>, p: Vec2)
    requires Tree(g, w, h, dep, par) && InGrid(p, w, h)
    ensures Tree(Set(g, p, TileFloor), w, h, dep, par)
  {
  }

  /** A new floor tile joins the tree below an adjacent member of smaller depth (or as the root). */
  lemma TreeAdd(g: Grid, w: nat, h: nat, dep: map<Vec2, nat>, par: map<Vec2, Vec2>, p: Vec2, q: Vec2)
    requires Tree(g, w, h, dep, par) && InGrid(p, w, h) && Get(g, p) == TileFloor && p !in dep
    requires p != Start ==> q in dep && Adjacent(p, q)
    ensures p == Start ==> Tree(g, w, h, dep[p := 0], par)
    ensures p != Start ==> Tree(g, w, h, dep[p := dep[q] + 1], par[p := q])
  {
    if p == Start {
      TreeAddRoot(g, w, h, dep, par);
    } else {
      TreeAddChild(g, w, h, dep, par, p, q);
    }
  }

  lemma TreeAddRoot(g: Grid, w: nat, h: nat, dep: map<Vec2, nat>, par: map<Vec2, Vec2>)
    requires Tree(g, w, h, dep, par) && InGrid(Start, w, h) && Get(g, Start) == TileFloor && Start !in dep
    ensures Tree(g, w, h, dep[Start := 0], par)
  {
    var d := dep[Start := 0];
    forall p | p in d && p != Start
      ensures p in par && par[p] in d && Adjacent(p, par[p]) && d[par[p]] < d[p]
    {
      assert p in dep && d[p] == dep[p];
      assert par[p] != Start && d[par[p]] == dep[par[p]];
    }
  }

  lemma TreeAddChild(g: Grid, w: nat, h: nat, dep: map<Vec2, nat>, par: map<Vec2, Vec2>, p: Vec2, q: Vec2)
    requires Tree(g, w, h, dep, par) && InGrid(p, w, h) && Get(g, p) == TileFloor && p !in dep
    requires p != Start && q in dep && Adjacent(p, q)
    ensures Tree(g, w, h, dep[p := dep[q] + 1], par[p := q])
  {
    var d, t := dep[p := dep[q] + 1], par[p := q];
    forall r | r in d
      ensures InGrid(r, w, h) && Get(g, r) == TileFloor
    {
      if r != p { assert r in dep; }
    }
    forall r | r in d && r != Start
      ensures r in t && t[r] in d && Adjacent(r, t[r]) && d[t[r]] < d[r]
    {
      if r == p {
        assert t[r] == q && d[q] == dep[q];
      } else {
        assert r in dep && t[r] == par[r] && d[r] == dep[r];
        assert par[r] in dep && par[r] != p && d[par[r]] == dep[par[r]];
      }
    }
  }

  /** Carving removes at least the wall at `cell`. */
  lemma CarveCount(g: Grid, w: nat, h: nat, e: Entry)
    requires WellShaped(g, w, h) && InGrid(e.0, w, h) && InGrid(e.1, w, h)
    requires Get(g, e.1) == TileWall
    ensures WallCount(Carve(g, e)) < WallCount(g)
  {
    WallCountSet(g, e.0, TileFloor);
    WallCountSet(Set(g, e.0, TileFloor), e.1, TileFloor);
  }

  /** `Grow` adds exactly `path` and `cell` to the carved set. */
  lemma GrowDomain(dep: map<Vec2, nat>, par: map<Vec2, Vec2>, e: Entry)
    requires e == (Start, Start) || Mirror(e) in dep
    ensures var dep' := Grow(dep, par, e).0;
            (forall p | p in dep :: p in dep') &&
            (forall p | p in dep' :: p in dep || p == e.0 || p == e.1) &&
            e.0 in dep' && e.1 in dep'
  {
  }

  lemma CarveTree(g: Grid, w: nat, h: nat, dep: map<Vec2, nat>, par: map<Vec2, Vec2>, e: Entry)
    requires w >= 2 && h >= 2
    requires Tree(g, w, h, dep, par)
    requires EntryOk(w, h, dep, e) && Get(g, e.1) == TileWall
    requires InGrid(e.0, w, h)
    ensures Tree(Carve(g, e), w, h, Grow(dep, par, e).0, Grow(dep, par, e).1)
  {
    var g1 := Set(g, e.0, TileFloor);
    var g2 := Set(g1, e.1, TileFloor);
    EntryOnLattice(w, h, dep, e);
    TreeSurvivesFloor(g, w, h, dep, par, e.0);
    TreeSurvivesFloor(g1, w, h, dep, par, e.1);
    assert Get(g2, e.0) == TileFloor && Get(g2, e.1) == TileFloor;
    GrowPathTree(g2, w, h, dep, par, e);
    GrowCellTree(g2, w, h, GrowPath(dep, par, e), e);
  }

  /** The second half of `Grow`: `cell`, a floor tile next to `path`, hangs off `path`. */
  lemma GrowCellTree(g: Grid, w: nat, h: nat, t: (map<Vec2, nat>, map<Vec2, Vec2>), e: Entry)
    requires e.0 in t.0 && (e.1 != Start ==> Adjacent(e.0, e.1))
    requires Tree(g, w, h, t.0, t.1)
    requires InGrid(e.1, w, h) && Get(g, e.1) == TileFloor
    ensures Tree(g, w, h, GrowCell(t, e).0, GrowCell(t, e).1)
  {
    if e.1 !in t.0 {
      TreeAdd(g, w, h, t.0, t.1, e.1, e.0);
    }
  }

  /** The first half of `Grow`: `path`, if new, hangs off the mirror (or is the root). */
  lemma GrowPathTree(g: Grid, w: nat, h: nat, dep: map<Vec2, nat>, par: map<Vec2, Vec2>, e: Entry)
    requires Tree(g, w, h, dep, par) && InGrid(e.0, w, h) && Get(g, e.0) == TileFloor
    requires e == (Start, Start) || (Mirror(e) in dep && Adjacent(e.0, e.1) && e.0 != Start)
    ensures Tree(g, w, h, GrowPath(dep, par, e).0, GrowPath(dep, par, e).1)
  {
    if e.0 !in dep {
      TreeAdd(g, w, h, dep, par, e.0, Mirror(e));
    }
  }

  /** Carving an acceptable entry whose cell is a wall keeps the tree and the lattice. */
  lemma CarveKeepsTree(g: Grid, w: nat, h: nat, dep: map<Vec2, nat>, par: map<Vec2, Vec2>, e: Entry)
    requires w >= 2 && h >= 2
    requires Tree(g, w, h, dep, par) && (forall p | p in dep :: OnLattice(p, w, h))
    requires EntryOk(w, h, dep, e) && Get(g, e.1) == TileWall
    ensures InGrid(e.0, w, h)
    ensures var (dep', par') := Grow(dep, par, e);
            Tree(Carve(g, e), w, h, dep', par') &&
            (forall p | p in dep' :: OnLattice(p, w, h)) &&
            (forall p | p in dep :: p in dep') &&
            (forall p | p in dep' :: p in dep || p == e.0 || p == e.1) &&
            e.0 in dep' && e.1 in dep'
    ensures WallCount(Carve(g, e)) < WallCount(g)
  {
    EntryOnLattice(w, h, dep, e);
    CarveCount(g, w, h, e);
    GrowDomain(dep, par, e);
    CarveTree(g, w, h, dep, par, e);
  }

  /**
   * The entries the `for dir in dirs` loop pushes for `cell`, in push order:
   * `(cell + step, cell + 2*step)` for each direction whose double step is
   * in the grid and still a wall.
   */
  function Targets(g: Grid, w: nat, h: nat, cell: Vec2, dirs: seq<Dir4>): (r: seq<Entry>)
    requires WellShaped(g, w, h)
    ensures |r| <= |dirs|
  {
    if dirs == [] then []
    else
      var step := StepOf(dirs[|dirs| - 1]);
      var double := Plus(cell, Times(step, 2));
      Targets(g, w, h, cell, dirs[..|dirs| - 1]) +
      (if InGrid(double, w, h) && Get(g, double) == TileWall then [(Plus(cell, step), double)] else [])
  }

  /** The entry pushed for one direction, when its double step is in the grid. */
  lemma PushOk(w: nat, h: nat, dep: map<Vec2, nat>, cell: Vec2, d: Dir4)
    requires OddCell(cell, w, h) && cell in dep
    requires InGrid(Plus(cell, Times(StepOf(d), 2)), w, h)
    ensures var e := (Plus(cell, StepOf(d)), Plus(cell, Times(StepOf(d), 2)));
            EntryOk(w, h, dep, e) && Mirror(e) == cell && InGrid(e.0, w, h)
  {
    var s := StepOf(d);
    assert Times(s, 2) == Vec2(2 * s.x, 2 * s.y);
  }

  /** A pushed entry targets a wall inside the grid, and its mirror is the pushing cell. */
  lemma {:induction false} TargetsOk(g: Grid, w: nat, h: nat, dep: map<Vec2, nat>, cell: Vec2, dirs: seq<Dir4>)
    requires WellShaped(g, w, h)
    requires OddCell(cell, w, h) && cell in dep
    ensures forall e | e in Targets(g, w, h, cell, dirs) ::
              EntryOk(w, h, dep, e) && Mirror(e) == cell && InGrid(e.0, w, h) && Get(g, e.1) == TileWall
  {
    if dirs != [] {
      var d := dirs[|dirs| - 1];
      TargetsOk(g, w, h, dep, cell, dirs[..|dirs| - 1]);
      if InGrid(Plus(cell, Times(StepOf(d), 2)), w, h) {
        PushOk(w, h, dep, cell, d);
      }
    }
  }

  // ------------------------------------------------------ the carving loop

  /**
   * What the carving loop keeps, for the grid `g0` it started from: the
   * carved tiles form a tree on the lattice, every stacked entry is
   * acceptable, and every tile that differs from `g0` is a carved floor tile.
   */
  ghost predicate LoopInv(g: Grid, g0: Grid, w: nat, h: nat, dep: map<Vec2, nat>,
                          par: map<Vec2, Vec2>, stack: seq<Entry>)
  {
    WellShaped(g0, w, h) &&
    Tree(g, w, h, dep, par) &&
    (forall p | p in dep :: OnLattice(p, w, h)) &&
    (forall i | 0 <= i < |stack| :: EntryOk(w, h, dep, stack[i])) &&
    (forall p | InGrid(p, w, h) && Get(g, p) != Get(g0, p) :: p in dep && Get(g, p) == TileFloor)
  }

  lemma LoopStart(g0: Grid, w: nat, h: nat)
    requires WellShaped(g0, w, h) && w >= 2 && h >= 2
    ensures LoopInv(g0, g0, w, h, map[], map[], [(Start, Start)])
  {
  }

  /** Popping an entry whose cell is already open changes nothing else. */
  lemma LoopSkip(g: Grid, g0: Grid, w: nat, h: nat, dep: map<Vec2, nat>,
                 par: map<Vec2, Vec2>, stack: seq<Entry>, e: Entry)
    requires LoopInv(g, g0, w, h, dep, par, stack + [e])
    ensures LoopInv(g, g0, w, h, dep, par, stack)
    ensures EntryOk(w, h, dep, e)
  {
    assert forall i | 0 <= i < |stack| :: stack[i] == (stack + [e])[i];
    assert (stack + [e])[|stack|] == e;
  }

  /** Popping an entry whose cell is a wall: carve it, grow the tree, push its targets. */
  lemma LoopCarve(g: Grid, g0: Grid, w: nat, h: nat, dep: map<Vec2, nat>,
                  par: map<Vec2, Vec2>, stack: seq<Entry>, e: Entry, dirs: seq<Dir4>)
    requires w >= 2 && h >= 2
    requires LoopInv(g, g0, w, h, dep, par, stack + [e])
    requires EntryOk(w, h, dep, e) && Get(g, e.1) == TileWall
    ensures InGrid(e.0, w, h)
    ensures var (dep', par') := Grow(dep, par, e);
            var g' := Carve(g, e);
            WellShaped(g', w, h) &&
            LoopInv(g', g0, w, h, dep', par', stack + Targets(g', w, h, e.1, dirs))
    ensures WallCount(Carve(g, e)) < WallCount(g)
  {
    LoopSkip(g, g0, w, h, dep, par, stack, e);
    CarveKeepsTree(g, w, h, dep, par, e);
    var (dep', par') := Grow(dep, par, e);
    var g' := Carve(g, e);
    EntriesGrow(w, h, dep, dep', stack);
    TargetsOk(g', w, h, dep', e.1, dirs);
    EntriesJoin(w, h, dep', stack, Targets(g', w, h, e.1, dirs));
    ChangedCarved(g, g0, w, h, dep, dep', e);
  }

  /** Acceptable entries stay acceptable when more acceptable ones are pushed after them. */
  lemma EntriesJoin(w: nat, h: nat, dep: map<Vec2, nat>, stack: seq<Entry>, pushed: seq<Entry>)
    requires forall i | 0 <= i < |stack| :: EntryOk(w, h, dep, stack[i])
    requires forall e | e in pushed :: EntryOk(w, h, dep, e)
    ensures forall i | 0 <= i < |stack + pushed| :: EntryOk(w, h, dep, (stack + pushed)[i])
  {
    forall i | 0 <= i < |stack + pushed|
      ensures EntryOk(w, h, dep, (stack + pushed)[i])
    {
      if i >= |stack| {
        assert (stack + pushed)[i] in pushed;
      }
    }
  }

  /** After carving, every tile that differs from the start grid is still a carved floor tile. */
  lemma ChangedCarved(g: Grid, g0: Grid, w: nat, h: nat, dep: map<Vec2, nat>, dep': map<Vec2, nat>, e: Entry)
    requires WellShaped(g, w, h) && WellShaped(g0, w, h) && InGrid(e.0, w, h) && InGrid(e.1, w, h)
    requires forall p | InGrid(p, w, h) && Get(g, p) != Get(g0, p) :: p in dep && Get(g, p) == TileFloor
    requires (forall p | p in dep :: p in dep') && e.0 in dep' && e.1 in dep'
    ensures forall p | InGrid(p, w, h) && Get(Carve(g, e), p) != Get(g0, p) ::
              p in dep' && Get(Carve(g, e), p) == TileFloor
  {
  }

  /** When the stack is empty, every tile that changed is a reachable lattice tile. */
  lemma LoopEnd(g: Grid, g0: Grid, w: nat, h: nat, dep: map<Vec2, nat>, par: map<Vec2, Vec2>)
    requires LoopInv(g, g0, w, h, dep, par, [])
    ensures forall p | InGrid(p, w, h) && Get(g, p) != Get(g0, p) ::
              OnLattice(p, w, h) && Reachable(g, w, h, p)
    ensures forall p | InGrid(p, w, h) :: Get(g, p) == Get(g0, p) || Get(g, p) == TileFloor
    ensures AllWall(g0, w, h) ==>
              forall p | InGrid(p, w, h) && Get(g, p) == TileFloor :: OnLattice(p, w, h) && Reachable(g, w, h, p)
  {
    TreeReachable(g, w, h, dep, par);
  }

  /** The `for dir in dirs` loop: push the valid targets of `cell`. */
  method PushTargets(g: Grid, w: nat, h: nat, cell: Vec2, dirs: seq<Dir4>, stack: seq<Entry>)
    returns (pushed: seq<Entry>)
    requires WellShaped(g, w, h)
    ensures pushed == stack + Targets(g, w, h, cell, dirs)
  {
    pushed := stack;
    for k := 0 to |dirs|
      invariant pushed == stack + Targets(g, w, h, cell, dirs[..k])
    {
      TargetsSnoc(g, w, h, cell, dirs, k);
      var step := StepOf(dirs[k]);
      var double := Plus(cell, Times(step, 2));
      if double.x >= 0 && double.x < w && double.y >= 0 && double.y < h
         && g[double.x][double.y] == TileWall {
        pushed := pushed + [(Plus(cell, step), double)];
      }
    }
    assert dirs[..|dirs|] == dirs;
  }

  /** The targets of one more direction: those of the first `k`, then the new one if valid. */
  lemma TargetsSnoc(g: Grid, w: nat, h: nat, cell: Vec2, dirs: seq<Dir4>, k: int)
    requires WellShaped(g, w, h) && 0 <= k < |dirs|
    ensures var step := StepOf(dirs[k]);
            var double := Plus(cell, Times(step, 2));
            Targets(g, w, h, cell, dirs[..k + 1]) ==
              Targets(g, w, h, cell, dirs[..k]) +
              (if InGrid(double, w, h) && Get(g, double) == TileWall then [(Plus(cell, step), double)] else [])
  {
    assert dirs[..k + 1][..k] == dirs[..k];
  }
}
