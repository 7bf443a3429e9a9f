/**
 * `cube/src/snake.rs`: the snake game on the 8x8 screen.  The body is a list
 * of points with the head first; each tick the snake turns (never straight
 * back), then eats, dies or moves.
 */
module Snakes {
  import opened Common
  import CubeRand
  import Wrappers

  /** The row byte lighting column x for each point of `body` on row y, columns `0..n`. */
  function RowByte(body: seq<Point>, y: int, n: nat): (b: bv8)
    requires n <= 8
  {
    if n == 0 then 0
    else RowByte(body, y, n - 1) | (if Point(n - 1, y) in body then Mask(n - 1) else 0)
  }

  /** Column x of the row byte is lit exactly when x < n and a body point sits at (x, y). */
  lemma {:induction false} RowByteBits(body: seq<Point>, y: int, n: nat, x: int)
    requires n <= 8 && 0 <= x < 8
    ensures (RowByte(body, y, n) & Mask(x) != 0) <==> x < n && Point(x, y) in body
  {
    if n > 0 {
      RowByteBits(body, y, n - 1, x);
      MaskDistinct(n - 1, x);
      var r := RowByte(body, y, n - 1);
      var m: bv8 := if Point(n - 1, y) in body then Mask(n - 1) else 0;
      assert (r | m) & Mask(x) == (r & Mask(x)) | (m & Mask(x));
    }
  }

  /** `Snake::as_bytes` as a frame: row y lights the body points on it. */
  function Frame(body: seq<Point>): (rows: seq<bv8>)
    ensures |rows| == 8
  {
    seq(8, y => RowByte(body, y, 8))
  }

  /** Pixel (x, y) of the snake's frame is lit exactly when a body point is at (x, y). */
  lemma FrameLit(body: seq<Point>, x: int, y: int)
    requires 0 <= x < 8 && 0 <= y < 8
    ensures Lit(Frame(body), x, y) <==> Point(x, y) in body
  {
    RowByteBits(body, y, 8, x);
  }

  /** All points on the 8x8 board. */
  predicate OnBoard(ps: seq<Point>)
  {
    forall i | 0 <= i < |ps| :: 0 <= ps[i].x < 8 && 0 <= ps[i].y < 8
  }

  class Snake {
    var direction: Direction
    var head: Point
    var body: seq<Point>

    /** The head leads a body of at least two points, and the snake always has a real direction. */
    ghost predicate Valid()
      reads this
    {
      direction != None && |body| >= 2 && body[0] == head
    }

    /** `Snake::new(h)`: heading up, body `[h, h + (0, 1)]`. */
    constructor (h: Point)
      ensures Valid()
      ensures direction == Up && head == h && body == [h, Point(h.x, h.y + 1)]
    {
      direction := Up;
      head := h;
      body := [h, Point(h.x, h.y + 1)];
    }

    /** `set_direction`: turning straight back is ignored, any other direction is taken. */
    method SetDirection(dir: Direction)
      requires dir != None
      modifies this
      ensures direction == if dir == Opposite(old(direction)) then old(direction) else dir
      ensures direction == None ==> old(direction) == None
      ensures head == old(head) && body == old(body)
    {
      if dir == Opposite(direction) {
        return;
      }
      direction := dir;
    }

    /** `next_head_pos`: one step from the head. */
    function NextHeadPos(): (p: Point)
      reads this
      ensures p == Step(head, direction)
    {
      match direction
      case Up => head.(y := head.y - 1)
      case Right => head.(x := head.x + 1)
      case Down => head.(y := head.y + 1)
      case Left => head.(x := head.x - 1)
      case None => head
    }

    /** `grow`: the food becomes the head, in front of the whole old body. */
    method Grow(food: Point)
      modifies this
      ensures head == food && body == [food] + old(body) && direction == old(direction)
      ensures |body| == |old(body)| + 1
    {
      head := food;
      body := [food] + body;
    }

    /** `move`: a new head in front, the tail point dropped. */
    method Move()
      requires Valid()
      modifies this
      ensures Valid()
      ensures head == old(Step(head, direction)) && direction == old(direction)
      ensures body == [head] + old(body)[..|old(body)| - 1]
      ensures |body| == |old(body)|
    {
      var next := NextHeadPos();
      body := [next] + body;
      body := body[..|body| - 1];
      head := next;
    }

    /** `overlapping`: the head occurs again further down the body. */
    predicate Overlapping()
      reads this
    {
      body != [] && head in body[1..]
    }

    /** `as_bytes`: for each row, OR in the bit of every column a body point occupies. */
    method AsBytes() returns (bs: seq<bv8>)
      ensures bs == Frame(body)
      ensures forall x, y | 0 <= x < 8 && 0 <= y < 8 :: Lit(bs, x, y) <==> Point(x, y) in body
    {
      bs := [0, 0, 0, 0, 0, 0, 0, 0];
      for y := 0 to 8
        invariant |bs| == 8
        invariant forall j | 0 <= j < y :: bs[j] == RowByte(body, j, 8)
      {
        var tmp: bv8 := 0;
        for x := 0 to 8
          invariant tmp == RowByte(body, y, x)
        {
          if Point(x, y) in body {
            tmp := tmp | Mask(x);
          }
        }
        bs := bs[y := tmp];
      }
      forall x, y | 0 <= x < 8 && 0 <= y < 8 ensures Lit(bs, x, y) <==> Point(x, y) in body {
        FrameLit(body, x, y);
      }
    }
  }

  /** The frame `draw` writes: the snake's rows, with the food's bit ORed into its row. */
  function DrawnFrame(body: seq<Point>, food: Point): (rows: seq<bv8>)
    requires 0 <= food.x < 8 && 0 <= food.y < 8
    ensures |rows| == 8
  {
    Frame(body)[food.y := Frame(body)[food.y] | Mask(food.x)]
  }

  /** The drawn frame lights exactly the body and the food. */
  lemma DrawnFrameLit(body: seq<Point>, food: Point, x: int, y: int)
    requires 0 <= food.x < 8 && 0 <= food.y < 8 && 0 <= x < 8 && 0 <= y < 8
    ensures Lit(DrawnFrame(body, food), x, y) <==> Point(x, y) in body || Point(x, y) == food
  {
    FrameLit(body, x, y);
    MaskDistinct(food.x, x);
    var r := Frame(body)[y];
    assert (r | Mask(food.x)) & Mask(x) == (r & Mask(x)) | (Mask(food.x) & Mask(x));
  }

  /** The food one attempt of `create_food` draws: `random(0, 8)` for x and for y. */
  function FoodDraw(seed: (CubeRand.U64, CubeRand.U64)): Point
  {
    Point(CubeRand.RandomFrom(seed.0, 0, 8), CubeRand.RandomFrom(seed.1, 0, 8))
  }

  /**
   * The food `create_food` settles on: the first attempt that misses the
   * body, or none when every attempt lands on it.
   */
  function FirstFood(body: seq<Point>, seeds: seq<(CubeRand.U64, CubeRand.U64)>): (r: Wrappers.Option<Point>)
    ensures r.Some? ==> r.value !in body && 0 <= r.value.x < 8 && 0 <= r.value.y < 8
    ensures r.Some? ==> exists k | 0 <= k < |seeds| :: r.value == FoodDraw(seeds[k])
    ensures r.None? <==> forall k | 0 <= k < |seeds| :: FoodDraw(seeds[k]) in body
  {
    if seeds == [] then Wrappers.None
    else if FoodDraw(seeds[0]) !in body then Wrappers.Some(FoodDraw(seeds[0]))
    else
      var r := FirstFood(body, seeds[1..]);
      assert forall k | 1 <= k < |seeds| :: seeds[k] == seeds[1..][k - 1];
      assert r.Some? ==> exists k | 0 <= k < |seeds| :: r.value == FoodDraw(seeds[k]) by {
        if r.Some? {
          var k :| 0 <= k < |seeds[1..]| && r.value == FoodDraw(seeds[1..][k]);
          assert seeds[1..][k] == seeds[k + 1];
        }
      }
      r
  }

  class SnakeGame {
    const width: int
    const height: int
    const snake: Snake
    var food: Point
    var waitingTime: nat
    var score: CubeRand.U8
    var highest: CubeRand.U8
    var gameOver: bool

    /** The board is 8x8, the food is on it, and the snake keeps its shape and stays on the board. */
    ghost predicate Valid()
      reads this, snake
    {
      width == 8 && height == 8 && snake.Valid() && OnBoard(snake.body) &&
      0 <= food.x < 8 && 0 <= food.y < 8
    }

    /**
     * `SnakeGame::new`: an 8x8 board, the snake at (5, 5), food from two
     * `random(0, 8)` draws seeded by `sx` and `sy`.
     */
    constructor (sx: CubeRand.U64, sy: CubeRand.U64)
      ensures Valid() && fresh(snake)
      ensures food == Point(CubeRand.RandomFrom(sx, 0, 8), CubeRand.RandomFrom(sy, 0, 8))
      ensures snake.head == Point(5, 5) && snake.body == [Point(5, 5), Point(5, 6)] && snake.direction == Up
      ensures waitingTime == 600 && score == 0 && highest == 0 && !gameOver
    {
      width := 8;
      height := 8;
      food := Point(CubeRand.RandomFrom(sx, 0, 8), CubeRand.RandomFrom(sy, 0, 8));
      snake := new Snake(Point(5, 5));
      waitingTime := 600;
      score := 0;
      highest := 0;
      gameOver := false;
    }

    /** `outside`: off the board. */
    predicate Outside(p: Point)
      reads this
    {
      p.x < 0 || p.y < 0 || p.x >= width || p.y >= height
    }

    /**
     * `create_food`: draw food from `random(0, 8)` twice per attempt until it
     * misses the body.  `seeds` are the hardware draws; `found` is false, and
     * the food unchanged, only if they run out.
     */
    method CreateFood(seeds: seq<(CubeRand.U64, CubeRand.U64)>) returns (found: bool)
      requires Valid()
      modifies this
      ensures Valid() && score == old(score) && gameOver == old(gameOver) && highest == old(highest)
      ensures found == FirstFood(snake.body, seeds).Some?
      ensures found ==> food == FirstFood(snake.body, seeds).value && food !in snake.body
      ensures !found ==> food == old(food)
    {
      var k := 0;
      while k < |seeds|
        invariant 0 <= k <= |seeds|
        invariant Valid() && food == old(food) && score == old(score) && gameOver == old(gameOver) &&
                  highest == old(highest)
        invariant FirstFood(snake.body, seeds) == FirstFood(snake.body, seeds[k..])
      {
        assert seeds[k..][1..] == seeds[k + 1..];
        var f := Point(CubeRand.RandomFrom(seeds[k].0, 0, width), CubeRand.RandomFrom(seeds[k].1, 0, height));
        if f !in snake.body {
          food := f;
          return true;
        }
        k := k + 1;
      }
      assert seeds[k..] == [];
      return false;
    }

    /**
     * `SnakeGame::move`: turn towards d (if any), then, for the next head:
     * food there means grow onto it, score (wrapping as a `u8`) and new food;
     * otherwise leaving the board, or the current head already overlapping
     * the body, ends the game; otherwise the snake moves.
     */
    method Move(d: Direction, seeds: seq<(CubeRand.U64, CubeRand.U64)>)
      requires Valid()
      modifies this, snake
      ensures Valid()
      ensures snake.direction == (if d == None || d == Opposite(old(snake.direction)) then old(snake.direction) else d)
      ensures var next := Step(old(snake.head), snake.direction);
              (next == old(food) ==>
                 snake.body == [next] + old(snake.body) && score == (old(score) + 1) % 256 &&
                 gameOver == old(gameOver) &&
                 food == (if FirstFood(snake.body, seeds).Some? then FirstFood(snake.body, seeds).value
                          else old(food))) &&
              (next != old(food) && (Outside(next) || old(snake.Overlapping())) ==>
                 gameOver && snake.body == old(snake.body) && score == old(score) && food == old(food)) &&
              (next != old(food) && !Outside(next) && !old(snake.Overlapping()) ==>
                 snake.body == [next] + old(snake.body)[..|old(snake.body)| - 1] &&
                 gameOver == old(gameOver) && score == old(score) && food == old(food))
    {
      if d != None {
        snake.SetDirection(d);
      }
      var next := snake.NextHeadPos();
      if food == next {
        snake.Grow(food);
        score := (score + 1) % 256;
        var _ := CreateFood(seeds);
      } else if Outside(next) || snake.Overlapping() {
        gameOver := true;
      } else {
        snake.Move();
      }
    }

    /** `draw`'s frame: the snake's bytes with the food's bit ORed into the food's row. */
    method Draw() returns (frame: seq<bv8>)
      requires Valid()
      ensures frame == DrawnFrame(snake.body, food)
      ensures forall x, y | 0 <= x < 8 && 0 <= y < 8 :: Lit(frame, x, y) <==> Point(x, y) in snake.body || Point(x, y) == food
    {
      var tmp := snake.AsBytes();
      var i := 0;
      while i < 8
        invariant 0 <= i <= 8 && |tmp| == 8
        invariant forall j | 0 <= j < 8 :: tmp[j] == (if j < i && j == food.y then Frame(snake.body)[j] | Mask(food.x)
                                                       else Frame(snake.body)[j])
      {
        if i == food.y {
          tmp := tmp[i := tmp[i] | Mask(food.x)];
        }
        i := i + 1;
      }
      frame := tmp;
      forall x, y | 0 <= x < 8 && 0 <= y < 8
        ensures Lit(frame, x, y) <==> Point(x, y) in snake.body || Point(x, y) == food
      {
        DrawnFrameLit(snake.body, food, x, y);
      }
    }

    /** The game-over branch of `run`: a beaten record becomes the new highest score. */
    method Finish()
      requires gameOver
      modifies this
      ensures highest == if old(score) > old(highest) then old(score) else old(highest)
      ensures score == old(score) && food == old(food) && gameOver
    {
      if score > highest {
        highest := score;
      }
    }
  }

  /**
   * The overlap test looks at the current head, so a move onto the body is
   * allowed: the new head then sits on the body.
   */
  lemma MoveOntoBody()
    ensures var body := [Point(2, 2), Point(3, 2), Point(3, 3), Point(2, 3), Point(1, 3)];
            var next := Step(body[0], Down);
            next in body && body[0] !in body[1..] &&
            ([next] + body[..|body| - 1])[0] in ([next] + body[..|body| - 1])[1..]
  {
    var body := [Point(2, 2), Point(3, 2), Point(3, 3), Point(2, 3), Point(1, 3)];
    var moved := [Point(2, 3)] + body[..4];
    assert moved[4] == Point(2, 3);
    assert moved[1..][3] == Point(2, 3);
  }
}
