/** An optional value (`Option` in the source). */
module Wrappers {
  datatype Option<T> = None | Some(value: T)
}

/**
 * Pieces shared by the games and the LED code: the tilt direction, grid
 * points with their one-step move, colours, and the 8x8 one-bit frame in
 * which pixel (x, y) is bit 7-x of row y.
 */
module Common {

  /**
   * The direction a game reads from the accelerometer.  The source has a
   * four-way `Direction` and a five-way `Gd` (with `None`); both are this type.
   */
  datatype Direction = None | Up | Right | Down | Left

  /** `embedded_graphics::Point` (the model does not bound the coordinates to i32). */
  datatype Point = Point(x: int, y: int)

  /** `Rgb888`, with the web colours the games use. */
  datatype Rgb = Rgb(r: bv8, g: bv8, b: bv8)

  const Black := Rgb(0, 0, 0)
  const CssRed := Rgb(255, 0, 0)
  const CssWhite := Rgb(255, 255, 255)
  const CssGreen := Rgb(0, 128, 0)
  const CssBlue := Rgb(0, 0, 255)
  const CssCyan := Rgb(0, 255, 255)
  const CssYellow := Rgb(255, 255, 0)
  const CssOrangeRed := Rgb(255, 69, 0)

  /** The one-unit move every game uses: Up is y-1, Right x+1, Down y+1, Left x-1. */
  function Step(p: Point, d: Direction): (r: Point)
    ensures d == None ==> r == p
    ensures d == Up ==> r == Point(p.x, p.y - 1)
    ensures d == Right ==> r == Point(p.x + 1, p.y)
    ensures d == Down ==> r == Point(p.x, p.y + 1)
    ensures d == Left ==> r == Point(p.x - 1, p.y)
  {
    match d
    case None => p
    case Up => p.(y := p.y - 1)
    case Right => p.(x := p.x + 1)
    case Down => p.(y := p.y + 1)
    case Left => p.(x := p.x - 1)
  }

  /** A step stays put exactly for `None`. */
  lemma StepMovesUnlessNone(p: Point, d: Direction)
    ensures Step(p, d) == p <==> d == None
  {
  }

  /** The reverse direction; `None` has none. */
  function Opposite(d: Direction): (r: Direction)
    ensures (r == d) == (d == None)
  {
    match d
    case None => None
    case Up => Down
    case Right => Left
    case Down => Up
    case Left => Right
  }

  lemma OppositeInvolution(d: Direction)
    ensures Opposite(Opposite(d)) == d
  {
  }

  /** Stepping one way and then the opposite way returns to the start. */
  lemma StepOpposite(p: Point, d: Direction)
    ensures Step(Step(p, d), Opposite(d)) == p
  {
  }

  // ------------------------------------------------------ the 8x8 bit frame

  /** `1 << (7 - x)`: the bit of column x in a row byte. */
  function Mask(x: int): (m: bv8)
    requires 0 <= x < 8
  {
    (1 as bv8) << (7 - x)
  }

  /** Pixel (x, y) of an eight-row frame is lit. */
  predicate Lit(rows: seq<bv8>, x: int, y: int)
    requires |rows| == 8 && 0 <= x < 8 && 0 <= y < 8
  {
    rows[y] & Mask(x) != 0
  }

  /** Distinct columns have distinct masks, so rows are sets of columns. */
  lemma MaskDistinct(x: int, x': int)
    requires 0 <= x < 8 && 0 <= x' < 8
    ensures (Mask(x) & Mask(x') != 0) <==> x == x'
  {
  }

  /** Two rows are equal exactly when they light the same columns. */
  lemma RowExtensional(a: bv8, b: bv8)
    requires forall x | 0 <= x < 8 :: (a & Mask(x) != 0) == (b & Mask(x) != 0)
    ensures a == b
  {
    assert a & Mask(0) != 0 <==> b & Mask(0) != 0;
    assert a & Mask(1) != 0 <==> b & Mask(1) != 0;
    assert a & Mask(2) != 0 <==> b & Mask(2) != 0;
    assert a & Mask(3) != 0 <==> b & Mask(3) != 0;
    assert a & Mask(4) != 0 <==> b & Mask(4) != 0;
    assert a & Mask(5) != 0 <==> b & Mask(5) != 0;
    assert a & Mask(6) != 0 <==> b & Mask(6) != 0;
    assert a & Mask(7) != 0 <==> b & Mask(7) != 0;
  }

}
