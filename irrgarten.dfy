/**
 * The `irrgarten` crate: the same column-major tile maze and the same
 * carving algorithm as the `maze` crate, written with an `is_empty` test and
 * `pop().unwrap()` instead of `while let`.
 */
module Irrgarten {
  import opened Carving

  class Maze {
    const width: nat
    const height: nat
    var data: Grid

    ghost predicate Valid()
      reads this
    {
      WellShaped(data, width, height)
    }

    /** `Maze::new`: the dimension check is commented out, so it always succeeds. */
    constructor (width: nat, height: nat)
      ensures this.width == width && this.height == height
      ensures Valid() && AllWall(data, width, height)
    {
      this.width := width;
      this.height := height;
      data := Filled(width, height);
    }

    /** `maze[i]`: the i-th column, so the grid is read as `maze[x][y]`. */
    function Index(i: nat): (col: seq<int>)
      reads this
      requires Valid() && i < width
      ensures |col| == height
      ensures forall y | 0 <= y < height :: col[y] == Get(data, Vec2(i, y))
    {
      data[i]
    }

    /**
     * `generate`: until the stack is empty, pop `(path, cell)`; if `cell` is a wall, open `path` and
     * `cell` and push, in the k-th shuffled order, every double step that is
     * in the grid and still a wall.  `picks(k)` stands for the generator's
     * k-th shuffle.
     */
    method Generate(picks: nat -> nat)
      requires Valid() && width >= 2 && height >= 2
      modifies this
      ensures Valid()
      ensures forall p | InGrid(p, width, height) ::
                Get(data, p) == Get(old(data), p) || Get(data, p) == TileFloor
      ensures forall p | InGrid(p, width, height) && Get(data, p) != Get(old(data), p) ::
                OnLattice(p, width, height) && Reachable(data, width, height, p)
      ensures old(AllWall(data, width, height)) ==>
                forall p | InGrid(p, width, height) && Get(data, p) == TileFloor ::
                  OnLattice(p, width, height) && Reachable(data, width, height, p)
      ensures old(AllWall(data, width, height)) ==>
                forall p | InGrid(p, width, height) && !OnLattice(p, width, height) :: Get(data, p) == TileWall
      ensures old(AllWall(data, width, height)) && width % 2 == 1 && height % 2 == 1 ==>
                forall p | InGrid(p, width, height) && OnBorder(p, width, height) :: Get(data, p) == TileWall
    {
      ghost var data0 := data;
      ghost var dep: map<Vec2, nat> := map[];
      ghost var par: map<Vec2, Vec2> := map[];
      var carves: nat := 0;
      var stack: seq<Entry> := [(Start, Start)];
      LoopStart(data, width, height);
      while stack != []
        invariant WellShaped(data, width, height)
        invariant LoopInv(data, data0, width, height, dep, par, stack)
        decreases 5 * WallCount(data) + |stack|
      {
        ghost var full := stack;
        // `stack.pop().unwrap()`: the loop test guarantees a last element
        var e := stack[|stack| - 1];
        stack := stack[..|stack| - 1];
        assert full == stack + [e];
        LoopSkip(data, data0, width, height, dep, par, stack, e);
        var (path, cell) := e;
        if data[cell.x][cell.y] == TileWall {
          LoopCarve(data, data0, width, height, dep, par, stack, e, Shuffle(AllDirs, picks(carves)));
          data := Set(data, path, TileFloor);
          data := Set(data, cell, TileFloor);
          dep, par := Grow(dep, par, e).0, Grow(dep, par, e).1;
          var dirs := Shuffle(AllDirs, picks(carves));
          carves := carves + 1;
          stack := PushTargets(data, width, height, cell, dirs, stack);
        }
      }
      LoopEnd(data, data0, width, height, dep, par);
      if AllWall(data0, width, height) {
        KeptWalls(data, data0, width, height);
      }
    }
  }
}
