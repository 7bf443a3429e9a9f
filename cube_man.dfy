/**
 * `cube/src/cube_man.rs`: "go down a hundred floors".  Floors rise one row
 * per tick on an 8x8 screen; the man walks left and right, rides a floor he
 * stands on, and falls otherwise.
 */
module CubeMan {
  import opened Common
  import Wrappers
  import CubeRand

  /** `RgbColor::WHITE`, `RED`, `GREEN`, `YELLOW` (the primaries, unlike the web colours). */
  const White := Rgb(255, 255, 255)
  const Red := Rgb(255, 0, 0)
  const Green := Rgb(0, 255, 0)
  const Yellow := Rgb(255, 255, 0)

  datatype ConveyorDir = Clockwise | Counterclockwise

  datatype FloorType = Normal | Fragile(millis: nat) | Conveyor(dir: ConveyorDir) | Spring(height: CubeRand.U8)

  /** `Pixel<Rgb888>` */
  datatype Pixel = Pixel(pos: Point, color: Rgb)

  datatype Floor = Floor(kind: FloorType, data: seq<Pixel>)

  /** The colour `Floor::new` gives each kind. */
  function KindColor(ft: FloorType): Rgb
  {
    match ft
    case Normal => White
    case Fragile(_) => Red
    case Conveyor(_) => Green
    case Spring(_) => Yellow
  }

  /** `Floor::new`: one pixel per point, in order, coloured by the kind. */
  function NewFloor(ft: FloorType, points: seq<Point>): (f: Floor)
    ensures f.kind == ft && |f.data| == |points|
    ensures forall i | 0 <= i < |points| :: f.data[i] == Pixel(points[i], KindColor(ft))
  {
    Floor(ft, seq(|points|, i requires 0 <= i < |points| => Pixel(points[i], KindColor(ft))))
  }

  /** The kinds have distinct colours, so a floor's kind family shows on screen. */
  lemma KindColorsDistinct(a: FloorType, b: FloorType)
    requires KindColor(a) == KindColor(b)
    ensures a.Normal? == b.Normal? && a.Fragile? == b.Fragile? &&
            a.Conveyor? == b.Conveyor? && a.Spring? == b.Spring?
  {
  }

  // ------------------------------------------------------------ floor generation

  /** `FloorGen::init`: eight empty rows. */
  function InitFloors(): (r: seq<Wrappers.Option<Floor>>)
    ensures |r| == 8 && forall i | 0 <= i < 8 :: r[i].None?
  {
    seq(8, _ => Wrappers.None)
  }

  /** The points `0..len` on row 0. */
  function Row0(len: nat): (r: seq<Point>)
    ensures |r| == len && forall i | 0 <= i < len :: r[i] == Point(i, 0)
  {
    seq(len, i => Point(i, 0))
  }

  /** The kind by level: `Normal` up to 5, `Fragile(500)` up to 150, then a clockwise conveyor. */
  function KindFor(level: nat): FloorType
  {
    if level <= 5 then Normal
    else if level <= 150 then Fragile(500)
    else Conveyor(Clockwise)
  }

  /**
   * `FloorGen::random`: a floor only when `random_range(1..=10)` gives at
   * least 7; its length from `random_range(3..=5)`, its pixels on row 0 from
   * x = 0.  `perSeed` and `lenSeed` seed the two fresh generators.
   */
  function RandomFloor(level: nat, perSeed: CubeRand.U64, lenSeed: CubeRand.U64): Wrappers.Option<Floor>
  {
    CubeRand.InclusiveRange(1, 10, CubeRand.Lcg(perSeed) % CubeRand.Two32);
    CubeRand.InclusiveRange(3, 5, CubeRand.Lcg(lenSeed) % CubeRand.Two32);
    var per := CubeRand.RangeFrom(perSeed, CubeRand.Included(1), CubeRand.Included(10)).v;
    if per < 7 then Wrappers.None
    else
      var len := CubeRand.RangeFrom(lenSeed, CubeRand.Included(3), CubeRand.Included(5)).v;
      Wrappers.Some(NewFloor(KindFor(level), Row0(len)))
  }

  /**
   * What the random floor is: present exactly when the roll is 7 or more,
   * 3 or 4 pixels long (5 is never drawn), on row 0 from x = 0, coloured and
   * typed by the level.
   */
  lemma RandomFloorShape(level: nat, perSeed: CubeRand.U64, lenSeed: CubeRand.U64)
    ensures var per := 1 + (CubeRand.Lcg(perSeed) % CubeRand.Two32) % 9;
            RandomFloor(level, perSeed, lenSeed).Some? <==> per >= 7
    ensures var r := RandomFloor(level, perSeed, lenSeed);
            r.Some? ==>
              r.value.kind == KindFor(level) && 3 <= |r.value.data| <= 4 &&
              forall i | 0 <= i < |r.value.data| :: r.value.data[i] == Pixel(Point(i, 0), KindColor(KindFor(level)))
  {
    CubeRand.InclusiveRange(1, 10, CubeRand.Lcg(perSeed) % CubeRand.Two32);
    CubeRand.InclusiveRange(3, 5, CubeRand.Lcg(lenSeed) % CubeRand.Two32);
  }

  /** Every pixel of a floor moved to row y. */
  function AtRow(f: Floor, y: int): (r: Floor)
    ensures r.kind == f.kind && |r.data| == |f.data|
    ensures forall i | 0 <= i < |f.data| :: r.data[i] == f.data[i].(pos := Point(f.data[i].pos.x, y))
  {
    Floor(f.kind, seq(|f.data|, i requires 0 <= i < |f.data| => f.data[i].(pos := Point(f.data[i].pos.x, y))))
  }

  /** `FloorGen::floor`: a random floor placed on row 8, just below the screen. */
  function NewRow(level: nat, perSeed: CubeRand.U64, lenSeed: CubeRand.U64): (r: Wrappers.Option<Floor>)
    ensures r.Some? <==> RandomFloor(level, perSeed, lenSeed).Some?
    ensures r.Some? ==> r.value == AtRow(RandomFloor(level, perSeed, lenSeed).value, 8)
  {
    var f := RandomFloor(level, perSeed, lenSeed);
    if f.Some? then Wrappers.Some(AtRow(f.value, 8)) else Wrappers.None
  }

  /** Every pixel of a floor one row up. */
  function Raised(f: Floor): (r: Floor)
    ensures r.kind == f.kind && |r.data| == |f.data|
    ensures forall i | 0 <= i < |f.data| ::
              r.data[i].color == f.data[i].color && r.data[i].pos == Point(f.data[i].pos.x, f.data[i].pos.y - 1)
  {
    Floor(f.kind, seq(|f.data|, i requires 0 <= i < |f.data| =>
                        f.data[i].(pos := Point(f.data[i].pos.x, f.data[i].pos.y - 1))))
  }

  // ------------------------------------------------------------ standing on floors

  /** The smallest x of a floor's pixels (the x of `min_by` under the lexicographic pixel order). */
  function MinX(data: seq<Pixel>): (m: int)
    requires data != []
    ensures forall i | 0 <= i < |data| :: m <= data[i].pos.x
    ensures exists i | 0 <= i < |data| :: data[i].pos.x == m
  {
    if |data| == 1 then data[0].pos.x
    else
      var rest := MinX(data[1..]);
      if data[0].pos.x <= rest then data[0].pos.x
      else
        assert exists i | 0 <= i < |data| :: data[i].pos.x == rest by {
          var i :| 0 <= i < |data[1..]| && data[1..][i].pos.x == rest;
          assert data[i + 1] == data[1..][i];
        }
        rest
  }

  /** The largest x of a floor's pixels. */
  function MaxX(data: seq<Pixel>): (m: int)
    requires data != []
    ensures forall i | 0 <= i < |data| :: data[i].pos.x <= m
    ensures exists i | 0 <= i < |data| :: data[i].pos.x == m
  {
    if |data| == 1 then data[0].pos.x
    else
      var rest := MaxX(data[1..]);
      if data[0].pos.x >= rest then data[0].pos.x
      else
        assert exists i | 0 <= i < |data| :: data[i].pos.x == rest by {
          var i :| 0 <= i < |data[1..]| && data[1..][i].pos.x == rest;
          assert data[i + 1] == data[1..][i];
        }
        rest
  }

  /** The floor's x-span covers `pos.x` and one of its pixels is on the row below `pos`. */
  predicate Under(f: Floor, pos: Point)
    requires f.data != []
  {
    MinX(f.data) <= pos.x <= MaxX(f.data) &&
    exists i | 0 <= i < |f.data| :: f.data[i].pos.y == pos.y + 1
  }

  /** The present floors, in order (`filter_map(|f| f.clone())`). */
  function Present(floors: seq<Wrappers.Option<Floor>>): (r: seq<Floor>)
    ensures |r| <= |floors|
    ensures forall f | f in r :: Wrappers.Some(f) in floors
    ensures forall i | 0 <= i < |floors| && floors[i].Some? :: floors[i].value in r
  {
    if floors == [] then []
    else (if floors[0].Some? then [floors[0].value] else []) + Present(floors[1..])
  }

  /** No floor of the list has empty data (`min_by(..).unwrap()` would panic). */
  predicate NonEmptyFloors(fs: seq<Floor>)
  {
    forall i | 0 <= i < |fs| :: fs[i].data != []
  }

  /** `on_floor`: the first floor under the man, if any (`iter().find`). */
  function OnFloor(fs: seq<Floor>, pos: Point): (r: Wrappers.Option<Floor>)
    requires NonEmptyFloors(fs)
    ensures r.Some? ==> exists i | 0 <= i < |fs| :: fs[i] == r.value && Under(fs[i], pos) &&
                          forall j | 0 <= j < i :: !Under(fs[j], pos)
    ensures r.None? <==> forall i | 0 <= i < |fs| :: !Under(fs[i], pos)
  {
    if fs == [] then Wrappers.None
    else if Under(fs[0], pos) then Wrappers.Some(fs[0])
    else
      var r := OnFloor(fs[1..], pos);
      OnFloorTail(fs, pos, r);
      r
  }

  /** What the search of the tail says about the whole list when its head is not under `pos`. */
  lemma OnFloorTail(fs: seq<Floor>, pos: Point, r: Wrappers.Option<Floor>)
    requires fs != [] && NonEmptyFloors(fs) && !Under(fs[0], pos)
    requires r.Some? ==> exists i | 0 <= i < |fs[1..]| :: fs[1..][i] == r.value && Under(fs[1..][i], pos) &&
                           forall j | 0 <= j < i :: !Under(fs[1..][j], pos)
    requires r.None? <==> forall i | 0 <= i < |fs[1..]| :: !Under(fs[1..][i], pos)
    ensures r.Some? ==> exists i | 0 <= i < |fs| :: fs[i] == r.value && Under(fs[i], pos) &&
                          forall j | 0 <= j < i :: !Under(fs[j], pos)
    ensures r.None? <==> forall i | 0 <= i < |fs| :: !Under(fs[i], pos)
  {
    if r.Some? {
      var k :| 0 <= k < |fs[1..]| && fs[1..][k] == r.value && Under(fs[1..][k], pos) &&
               forall j | 0 <= j < k :: !Under(fs[1..][j], pos);
      assert fs[k + 1] == fs[1..][k];
      forall j | 0 <= j < k + 1 ensures !Under(fs[j], pos) {
        if j > 0 { assert fs[j] == fs[1..][j - 1]; }
      }
      assert !Under(fs[k + 1], pos) ==> false;
    } else {
      forall i | 0 <= i < |fs| ensures !Under(fs[i], pos) {
        if i > 0 { assert fs[i] == fs[1..][i - 1]; }
      }
    }
  }

  /** `outside`: above or below the screen. */
  predicate Outside(p: Point)
  {
    p.y < 0 || p.y >= 8
  }

  /** `hit_wall`: left or right of the screen. */
  predicate HitWall(p: Point)
  {
    p.x < 0 || p.x >= 8
  }

  /** A point is on the screen exactly when it is neither outside nor in a wall. */
  lemma OnScreen(p: Point)
    ensures !Outside(p) && !HitWall(p) <==> 0 <= p.x < 8 && 0 <= p.y < 8
  {
  }

  /**
   * The conveyor branch of `moving_on_floor`, as written: nothing on a left
   * or right tilt; clockwise adds 1 to x below 7; counterclockwise subtracts
   * 1 whenever `x - 1 < 8`, which has no lower limit.
   */
  function ConveyorX(dir: ConveyorDir, d: Direction, x: int): int
  {
    if d == Left || d == Right then x
    else match dir
      case Clockwise => if x + 1 < 8 then x + 1 else x
      case Counterclockwise => if x - 1 < 8 then x - 1 else x
  }

  /** The counterclockwise conveyor carries a man at x = 0 off the left edge. */
  lemma ConveyorLeavesScreen()
    ensures ConveyorX(Counterclockwise, None, 0) == -1
    ensures HitWall(Point(ConveyorX(Counterclockwise, None, 0), 0))
  {
  }

  /** The conveyor with the evident lower clamp `x - 1 >= 0`. */
  function FixedConveyorX(dir: ConveyorDir, d: Direction, x: int): int
  {
    if d == Left || d == Right then x
    else match dir
      case Clockwise => if x + 1 < 8 then x + 1 else x
      case Counterclockwise => if x - 1 >= 0 then x - 1 else x
  }

  /** The clamped conveyor keeps an on-screen x on the screen and moves it by at most one. */
  lemma FixedConveyorStays(dir: ConveyorDir, d: Direction, x: int)
    requires 0 <= x < 8
    ensures 0 <= FixedConveyorX(dir, d, x) < 8
    ensures -1 <= FixedConveyorX(dir, d, x) - x <= 1
    ensures dir == Clockwise ==> FixedConveyorX(dir, d, x) == ConveyorX(dir, d, x)
  {
  }

  /** The clockwise conveyor as written already stays on the screen. */
  lemma ClockwiseStays(d: Direction, x: int)
    requires 0 <= x < 8
    ensures 0 <= ConveyorX(Clockwise, d, x) < 8
  {
  }

  // ------------------------------------------------------------ the man

  class Man {
    var pos: Point
    var color: Rgb

    /** `CubeMan::new`: orange-red at `pos` (the float speeds are not modelled). */
    constructor (pos: Point)
      ensures this.pos == pos && color == CssOrangeRed
    {
      this.pos := pos;
      color := CssOrangeRed;
    }

    /** `next_pos`: only a left or right tilt moves, and only along x. */
    function NextPos(d: Direction): (r: Point)
      reads this
      ensures r.y == pos.y
      ensures r.x == pos.x + (if d == Right then 1 else if d == Left then -1 else 0)
    {
      match d
      case Right => pos.(x := pos.x + 1)
      case Left => pos.(x := pos.x - 1)
      case _ => pos
    }

    method Move(d: Direction)
      modifies this
      ensures pos == old(NextPos(d)) && color == old(color)
    {
      pos := NextPos(d);
    }

    /** `fall`: one row down. */
    method Fall()
      modifies this
      ensures pos == Point(old(pos.x), old(pos.y) + 1) && color == old(color)
    {
      pos := pos.(y := pos.y + 1);
    }

    /** `up`: one row up. */
    method Up()
      modifies this
      ensures pos == Point(old(pos.x), old(pos.y) - 1) && color == old(color)
    {
      pos := pos.(y := pos.y - 1);
    }
  }

  /** The man's position after `moving_on_floor` on a floor of kind `ft`. */
  function RideFloor(ft: FloorType, d: Direction, p: Point): (r: Point)
    ensures ft.Normal? || ft.Fragile? ==> r == p
    ensures ft.Spring? ==> r == Point(p.x, p.y - ft.height)
    ensures ft.Conveyor? ==> r == Point(ConveyorX(ft.dir, d, p.x), p.y)
  {
    match ft
    case Normal => p
    case Fragile(_) => p
    case Conveyor(cd) => Point(ConveyorX(cd, d, p.x), p.y)
    case Spring(h) => Point(p.x, p.y - h)
  }

  class Game {
    const man: Man
    var floors: seq<Wrappers.Option<Floor>>
    var depth: nat
    var score: CubeRand.U8
    var highest: CubeRand.U8
    var gameOver: bool
    var waitingTime: nat

    /** Eight rows, every present floor with at least one pixel. */
    ghost predicate Valid()
      reads this
    {
      |floors| == 8 && EntriesNonEmpty(floors)
    }

    /** `CubeManGame::new`: the man at the origin, eight empty rows, nothing scored. */
    constructor ()
      ensures Valid() && fresh(man) && man.pos == Point(0, 0)
      ensures floors == InitFloors() && depth == 0 && score == 0 && highest == 0
      ensures !gameOver && waitingTime == 230
    {
      man := new Man(Point(0, 0));
      floors := InitFloors();
      depth := 0;
      score := 0;
      highest := 0;
      gameOver := false;
      waitingTime := 230;
    }

    /** `calc_score`: one more point, wrapping as a `u8`. */
    method CalcScore()
      modifies this
      ensures score == (old(score) + 1) % 256
      ensures floors == old(floors) && depth == old(depth) && highest == old(highest) && gameOver == old(gameOver)
    {
      score := (score + 1) % 256;
    }

    /**
     * The floor scroll of `run`: drop the top row, append a new row 8 floor,
     * then raise every present floor by one row.
     */
    method Scroll(perSeed: CubeRand.U64, lenSeed: CubeRand.U64)
      requires Valid()
      modifies this
      ensures Valid()
      ensures forall i | 0 <= i < 7 :: floors[i] == Lift(old(floors)[i + 1])
      ensures floors[7] == Lift(NewRow(depth, perSeed, lenSeed))
      ensures depth == old(depth) && score == old(score) && highest == old(highest) && gameOver == old(gameOver)
    {
      RandomFloorShape(depth, perSeed, lenSeed);
      var shifted := floors[1..] + [NewRow(depth, perSeed, lenSeed)];
      assert EntriesNonEmpty(shifted);
      floors := shifted;
      var i := 0;
      while i < 8
        invariant 0 <= i <= 8 && |floors| == 8
        invariant forall j | 0 <= j < i :: floors[j] == Lift(shifted[j])
        invariant forall j | i <= j < 8 :: floors[j] == shifted[j]
        invariant EntriesNonEmpty(floors)
        invariant depth == old(depth) && score == old(score) && highest == old(highest) && gameOver == old(gameOver)
      {
        if floors[i].Some? {
          floors := floors[i := Wrappers.Some(Raised(floors[i].value))];
        }
        i := i + 1;
      }
    }

    /**
     * `move`: a sideways step into the top or bottom edge ends the game, one
     * into a side wall is ignored; otherwise the man steps, and then rides
     * the first floor below him (one row up, plus its effect) or falls one row.
     */
    method Move(d: Direction)
      requires Valid()
      modifies this, man
      ensures Valid() && floors == old(floors) && score == old(score) && depth == old(depth) && highest == old(highest)
      ensures NonEmptyFloors(Present(floors))
      ensures var np := old(man.NextPos(d));
              (Outside(np) ==> gameOver && man.pos == old(man.pos)) &&
              (!Outside(np) && HitWall(np) ==> gameOver == old(gameOver) && man.pos == old(man.pos)) &&
              (!Outside(np) && !HitWall(np) ==>
                 gameOver == old(gameOver) && man.pos == Landing(Present(floors), np, d))
    {
      NonEmptyPerEntry(floors);
      var np := man.NextPos(d);
      if Outside(np) {
        gameOver := true;
      } else if HitWall(np) {
        return;
      } else {
        StepAndLand(d, Present(floors));
      }
    }

    /** The on-screen branch of `move`: step, then ride the first floor below or fall. */
    method StepAndLand(d: Direction, fs: seq<Floor>)
      requires NonEmptyFloors(fs)
      modifies man
      ensures man.pos == Landing(fs, old(man.NextPos(d)), d)
    {
      ghost var np := man.NextPos(d);
      man.Move(d);
      var f := OnFloor(fs, man.pos);
      if f.Some? {
        man.Up();
        man.pos := RideFloor(f.value.kind, d, man.pos);
      } else {
        man.Fall();
      }
    }

    /**
     * One pass of `run`'s loop: at game over, raise the record if beaten and
     * stop; otherwise scroll the floors, move the man and go one level deeper.
     */
    method Tick(d: Direction, perSeed: CubeRand.U64, lenSeed: CubeRand.U64) returns (finished: bool)
      requires Valid()
      modifies this, man
      ensures Valid()
      ensures finished == old(gameOver)
      ensures old(gameOver) ==> highest == (if old(score) > old(highest) then old(score) else old(highest)) &&
                                floors == old(floors) && man.pos == old(man.pos) &&
                                score == old(score) && depth == old(depth) && gameOver
      ensures !old(gameOver) ==> depth == old(depth) + 1 && highest == old(highest) && score == old(score)
      ensures !old(gameOver) ==>
                (forall i | 0 <= i < 7 :: floors[i] == Lift(old(floors)[i + 1])) &&
                floors[7] == Lift(NewRow(old(depth), perSeed, lenSeed))
      ensures !old(gameOver) ==>
                NonEmptyFloors(Present(floors)) &&
                var np := old(man.NextPos(d));
                (Outside(np) ==> gameOver && man.pos == old(man.pos)) &&
                (!Outside(np) && HitWall(np) ==> !gameOver && man.pos == old(man.pos)) &&
                (!Outside(np) && !HitWall(np) ==> !gameOver && man.pos == Landing(Present(floors), np, d))
      ensures highest >= old(highest)
    {
      if gameOver {
        if score > highest {
          highest := score;
        }
        return true;
      }
      finished := false;
      Scroll(perSeed, lenSeed);
      Move(d);
      depth := depth + 1;
    }
  }

  /**
   * Where the man ends after stepping to `np`: one row up and carried by
   * the first floor under him (`on_floor`), or one row down when there is none.
   */
  function Landing(fs: seq<Floor>, np: Point, d: Direction): Point
    requires NonEmptyFloors(fs)
  {
    var f := OnFloor(fs, np);
    if f.Some? then RideFloor(f.value.kind, d, Point(np.x, np.y - 1)) else Point(np.x, np.y + 1)
  }

  /** With no floor under `np` the man falls one row. */
  lemma LandingFalls(fs: seq<Floor>, np: Point, d: Direction)
    requires NonEmptyFloors(fs)
    requires forall i | 0 <= i < |fs| :: !Under(fs[i], np)
    ensures Landing(fs, np, d) == Point(np.x, np.y + 1)
  {
  }

  /** With floor `i` the first one under `np`, the man rises one row and rides floor `i`. */
  lemma LandingRides(fs: seq<Floor>, np: Point, d: Direction, i: int)
    requires NonEmptyFloors(fs)
    requires 0 <= i < |fs| && Under(fs[i], np) && forall j | 0 <= j < i :: !Under(fs[j], np)
    ensures Landing(fs, np, d) == RideFloor(fs[i].kind, d, Point(np.x, np.y - 1))
  {
    OnFloorFirst(fs, np, i);
  }

  /** `find` returns the first floor under `pos`. */
  lemma {:induction false} OnFloorFirst(fs: seq<Floor>, pos: Point, i: int)
    requires NonEmptyFloors(fs)
    requires 0 <= i < |fs| && Under(fs[i], pos) && forall j | 0 <= j < i :: !Under(fs[j], pos)
    ensures OnFloor(fs, pos) == Wrappers.Some(fs[i])
    decreases i
  {
    if i > 0 {
      assert !Under(fs[0], pos);
      assert fs[1..][i - 1] == fs[i];
      forall j | 0 <= j < i - 1 ensures !Under(fs[1..][j], pos) {
        assert fs[1..][j] == fs[j + 1];
      }
      OnFloorFirst(fs[1..], pos, i - 1);
    }
  }

  /** A row after the raise. */
  function Lift(o: Wrappers.Option<Floor>): Wrappers.Option<Floor>
  {
    if o.Some? then Wrappers.Some(Raised(o.value)) else Wrappers.None
  }

  /** Every present row has at least one pixel. */
  predicate EntriesNonEmpty(floors: seq<Wrappers.Option<Floor>>)
  {
    forall i | 0 <= i < |floors| :: floors[i].Some? ==> floors[i].value.data != []
  }

  /** The present floors of a list are the values of its `Some` entries, so non-emptiness is per entry. */
  lemma NonEmptyPerEntry(floors: seq<Wrappers.Option<Floor>>)
    ensures NonEmptyFloors(Present(floors)) <==> EntriesNonEmpty(floors)
  {
    var p := Present(floors);
    if NonEmptyFloors(p) {
      forall i | 0 <= i < |floors| && floors[i].Some? ensures floors[i].value.data != [] {
        assert floors[i].value in p;
      }
    }
    if EntriesNonEmpty(floors) {
      forall k | 0 <= k < |p| ensures p[k].data != [] {
        assert p[k] in p;
        assert Wrappers.Some(p[k]) in floors;
      }
    }
  }
}
