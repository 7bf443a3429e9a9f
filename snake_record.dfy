/**
 * `src/snake.rs`: the first cube's snake, ported field by field from an
 * Arduino sketch.  Only `new` and `reset` have bodies; the game logic is
 * still commented out.  A point is packed into one byte as `x << 3 | y`,
 * x and y in 0..8.
 */
module SnakeRecord {

  /** Counters and flags are `u8`; the packed points are kept as bytes. */
  type U8 = v: int | 0 <= v < 256

  /** The packed byte of point (x, y). */
  function Pack(x: bv8, y: bv8): (xy: bv8)
  {
    (x << 3) | y
  }

  /** `xy >> 3`. */
  function UnpackX(xy: bv8): (x: bv8)
  {
    xy >> 3
  }

  /** `xy & 0b00000111`. */
  function UnpackY(xy: bv8): (y: bv8)
  {
    xy & 7
  }

  /** Unpacking a packed on-screen point gives it back. */
  lemma UnpackPack(x: bv8, y: bv8)
    requires x < 8 && y < 8
    ensures UnpackX(Pack(x, y)) == x && UnpackY(Pack(x, y)) == y
    ensures Pack(x, y) < 64
  {
  }

  /** Every byte below 64 is the packing of its unpacked point. */
  lemma PackUnpack(xy: bv8)
    requires xy < 64
    ensures UnpackX(xy) < 8 && UnpackY(xy) < 8
    ensures Pack(UnpackX(xy), UnpackY(xy)) == xy
  {
  }

  /** Different on-screen points get different bytes. */
  lemma PackInjective(x1: bv8, y1: bv8, x2: bv8, y2: bv8)
    requires x1 < 8 && y1 < 8 && x2 < 8 && y2 < 8
    requires Pack(x1, y1) == Pack(x2, y2)
    ensures x1 == x2 && y1 == y2
  {
    UnpackPack(x1, y1);
    UnpackPack(x2, y2);
  }

  /** The start position (3, 3) packs to 27. */
  const StartXy: bv8 := 27

  /** The start position (3, 3) packs to 27 and back. */
  lemma StartPacks()
    ensures Pack(3, 3) == StartXy && UnpackX(StartXy) == 3 && UnpackY(StartXy) == 3
  {
  }

  /** `for i in 0..64 { body[i] = 0; }`. */
  method ZeroAll(a: array<bv8>)
    modifies a
    ensures forall k | 0 <= k < a.Length :: a[k] == 0
  {
    for i := 0 to a.Length
      invariant forall k | 0 <= k < i :: a[k] == 0
    {
      a[i] := 0;
    }
  }

  class Snake {
    /** Current heading: up 1, right 2, down 3, left 4. */
    var direction: U8
    /** `body: [u8; 64]`, packed points, a ring between `tail_addr` and `head_addr`. */
    const body: array<bv8>
    var headAddr: U8
    var tailAddr: U8
    var score: U8
    var foodXy: bv8
    var headX: bv8
    var headY: bv8
    var tailX: bv8
    var tailY: bv8
    var bodyAdded: U8
    var foodFlag: U8
    var bodyLength: U8
    var lifeState: U8
    var headXy: bv8
    var tailXy: bv8
    var tailXyDel: bv8

    /**
     * The state a new or reset snake is in: one segment at (3, 3), which is
     * both its head and its tail, heading up, alive, no score.
     */
    ghost predicate AtStart()
      reads this, body
    {
      && body.Length == 64
      && body[0] == StartXy && (forall i | 1 <= i < 64 :: body[i] == 0)
      && headAddr == 0 && tailAddr == 0
      && headX == 3 && headY == 3 && headXy == StartXy
      && tailXy == StartXy && tailX == 3 && tailY == 3
      && score == 0 && direction == 1 && bodyAdded == 0
      && bodyLength == 1 && lifeState == 1
    }

    /** `Snake::new()`. */
    constructor ()
      ensures AtStart() && fresh(body)
      ensures foodXy == 0 && foodFlag == 0 && tailXyDel == 0
    {
      direction := 1;
      body := new bv8[64](_ => 0);
      headAddr, tailAddr := 0, 0;
      score, foodXy := 0, 0;
      headX, headY := 3, 3;
      tailX, tailY := 0, 0;
      bodyAdded, foodFlag := 0, 0;
      bodyLength, lifeState := 1, 1;
      headXy, tailXy, tailXyDel := 0, 0, 0;
      new;
      StartPacks();
      headXy := Pack(headX, headY);
      body[headAddr] := headXy;
      tailXy := headXy;
      tailX := UnpackX(tailXy);
      tailY := UnpackY(tailXy);
    }

    /**
     * `reset`: back to the start state; the food position, the food flag and
     * `tail_xy_del` are left as they were.
     */
    method Reset()
      requires body.Length == 64
      modifies this, body
      ensures AtStart()
      ensures foodXy == old(foodXy) && foodFlag == old(foodFlag) && tailXyDel == old(tailXyDel)
    {
      ZeroAll(body);
      PlaceStart();
      score := 0;
      direction := 1;
      bodyAdded := 0;
      bodyLength := 1;
      lifeState := 1;
    }

    /** The head and the tail at (3, 3), both at the first body entry. */
    method PlaceStart()
      requires body.Length == 64
      modifies this`headAddr, this`tailAddr, this`headX, this`headY, this`headXy, this`tailXy, this`tailX, this`tailY, body
      ensures headAddr == 0 && tailAddr == 0 && headX == 3 && headY == 3
      ensures headXy == StartXy && tailXy == StartXy && tailX == 3 && tailY == 3
      ensures body[0] == StartXy && forall i | 1 <= i < 64 :: body[i] == old(body[i])
    {
      StartPacks();
      headAddr := 0;
      tailAddr := 0;
      headX := 3;
      headY := 3;
      headXy := Pack(headX, headY);
      body[headAddr] := headXy;
      tailXy := headXy;
      tailX := UnpackX(tailXy);
      tailY := UnpackY(tailXy);
    }

    /**
     * At the start the stored head byte, the first body entry and the tail
     * all decode to the head point, and the body holds exactly one segment.
     */
    lemma StartIsConsistent()
      requires AtStart()
      ensures headXy == Pack(headX, headY) && UnpackX(headXy) == headX && UnpackY(headXy) == headY
      ensures body[headAddr] == headXy == tailXy && UnpackX(tailXy) == tailX && UnpackY(tailXy) == tailY
      ensures forall i | 0 <= i < 64 && body[i] != 0 :: i == headAddr
    {
      UnpackPack(3, 3);
    }
  }
}
