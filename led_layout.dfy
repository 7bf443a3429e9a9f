/**
 * `smart-leds-matrix/src/layout.rs`: where in the LED strip the pixel at a
 * point of a rectangular matrix sits, for the four ways the strip may be
 * mirrored.  Points are `i32`, sizes `u32` and indices `usize`, which is 32
 * bits wide on the cube; the arithmetic wraps round as a release build does.
 */
module LedLayout {
  import opened Common
  import Wrappers

  const Two31: int := 0x8000_0000
  const Two32: int := 0x1_0000_0000

  type I32 = x: int | -Two31 <= x < Two31
  type U32 = x: int | 0 <= x < Two32

  /** Two's-complement wrap-around into `i32`; also what `as i32` does to a `u32`. */
  function WrapI32(v: int): (r: I32)
    ensures -Two31 <= v < Two31 ==> r == v
  {
    (v + Two31) % Two32 - Two31
  }

  /** The axis-inversion marker types. */
  datatype Invert = NoInvert | InvertX | InvertY | InvertXY

  /** `Rectangular<I>`: the matrix size and how its axes are mirrored. */
  datatype Rectangular = Rectangular(width: U32, height: U32, invert: Invert)

  /** `Rectangular::new`, `new_invert_x`, `new_invert_y`, `new_invert_xy`: the size is kept as given. */
  function New(width: U32, height: U32, invert: Invert): (l: Rectangular)
    ensures Size(l) == (width, height) && l.invert == invert
  {
    Rectangular(width, height, invert)
  }

  /** `size()`. */
  function Size(l: Rectangular): (s: (U32, U32))
  {
    (l.width, l.height)
  }

  predicate FlipsX(i: Invert)
  {
    i == InvertX || i == InvertXY
  }

  predicate FlipsY(i: Invert)
  {
    i == InvertY || i == InvertXY
  }

  /** `(size - 1) as i32 - c`, with the `u32` and `i32` wrap-arounds. */
  function Mirror(size: U32, c: I32): I32
  {
    WrapI32(WrapI32((size - 1) % Two32) - c)
  }

  /** `map(p)`: mirror the axes the layout inverts, then number the pixels row by row. */
  function Map(l: Rectangular, p: Point): (r: Wrappers.Option<nat>)
    requires -Two31 <= p.x < Two31 && -Two31 <= p.y < Two31
  {
    var x := if FlipsX(l.invert) then Mirror(l.width, p.x) else p.x;
    var y := if FlipsY(l.invert) then Mirror(l.height, p.y) else p.y;
    if x >= 0 && y >= 0 && x < WrapI32(l.width) && y < WrapI32(l.height)
    then Wrappers.Some((y * l.width + x) % Two32)
    else Wrappers.None
  }

  /** A size that fits the `i32` coordinates and whose pixel count fits `usize`. */
  predicate Fits(l: Rectangular)
  {
    l.width < Two31 && l.height < Two31 && l.width * l.height <= Two32
  }

  predicate IsI32Point(p: Point)
  {
    -Two31 <= p.x < Two31 && -Two31 <= p.y < Two31
  }

  predicate InMatrix(l: Rectangular, p: Point)
  {
    0 <= p.x < l.width && 0 <= p.y < l.height
  }

  /** Where `map` puts an in-range point: its (possibly mirrored) row-major number. */
  function Placed(l: Rectangular, p: Point): (i: nat)
    requires InMatrix(l, p)
  {
    var x := if FlipsX(l.invert) then l.width - 1 - p.x else p.x;
    var y := if FlipsY(l.invert) then l.height - 1 - p.y else p.y;
    y * l.width + x
  }

  /** A mirrored coordinate is in range exactly when the original is, and then no wrap-around happens. */
  lemma MirrorInRange(size: U32, c: I32)
    requires size < Two31
    ensures 0 <= Mirror(size, c) < size <==> 0 <= c < size
    ensures 0 <= c < size ==> Mirror(size, c) == size - 1 - c
  {
  }

  lemma RowMajorBelow(x: int, y: int, w: int, h: int)
    requires 0 <= x < w && 0 <= y < h
    ensures y * w + x < w * h
  {
    MulMono(y + 1, h, w);
    assert (y + 1) * w == y * w + w;
    assert h * w == w * h;
  }

  /**
   * For every layout variant `map` finds exactly the in-range points, and
   * places them at the row-major number of the mirrored point, below
   * `width * height`.
   */
  lemma MapInRange(l: Rectangular, p: Point)
    requires Fits(l) && IsI32Point(p)
    ensures Map(l, p).Some? <==> InMatrix(l, p)
    ensures InMatrix(l, p) ==> Map(l, p).value == Placed(l, p) < l.width * l.height
  {
    MirrorInRange(l.width, p.x);
    MirrorInRange(l.height, p.y);
    if InMatrix(l, p) {
      var x := if FlipsX(l.invert) then l.width - 1 - p.x else p.x;
      var y := if FlipsY(l.invert) then l.height - 1 - p.y else p.y;
      RowMajorBelow(x, y, l.width, l.height);
    }
  }

  /** `NoInvert` numbers the points row by row, `y * width + x`. */
  lemma MapNoInvert(l: Rectangular, p: Point)
    requires Fits(l) && IsI32Point(p) && l.invert == NoInvert
    ensures Map(l, p) == if InMatrix(l, p) then Wrappers.Some(p.y * l.width + p.x) else Wrappers.None
  {
    MapInRange(l, p);
  }

  lemma RowMajorUnique(x1: int, y1: int, x2: int, y2: int, w: int)
    requires 0 <= x1 < w && 0 <= x2 < w && 0 <= y1 && 0 <= y2
    requires y1 * w + x1 == y2 * w + x2
    ensures x1 == x2 && y1 == y2
  {
    if y1 < y2 {
      MulMono(y1 + 1, y2, w);
    } else if y2 < y1 {
      MulMono(y2 + 1, y1, w);
    }
  }

  lemma MulMono(a: int, b: int, w: int)
    requires a <= b && 0 <= w
    ensures a * w <= b * w
  {
    var d := b - a;
    assert b * w == a * w + d * w;
    assert d * w >= 0;
  }

  /** Different in-range points light different LEDs. */
  lemma MapInjective(l: Rectangular, p: Point, q: Point)
    requires Fits(l) && IsI32Point(p) && IsI32Point(q) && InMatrix(l, p) && InMatrix(l, q)
    requires Map(l, p) == Map(l, q)
    ensures p == q
  {
    MapInRange(l, p);
    MapInRange(l, q);
    var xp := if FlipsX(l.invert) then l.width - 1 - p.x else p.x;
    var yp := if FlipsY(l.invert) then l.height - 1 - p.y else p.y;
    var xq := if FlipsX(l.invert) then l.width - 1 - q.x else q.x;
    var yq := if FlipsY(l.invert) then l.height - 1 - q.y else q.y;
    RowMajorUnique(xp, yp, xq, yq, l.width);
  }

  /** The in-range point that `map` sends to LED `i`. */
  function PointOf(l: Rectangular, i: nat): (p: Point)
    requires 0 < l.width && i < l.width * l.height
  {
    var x, y := i % l.width, i / l.width;
    Point(if FlipsX(l.invert) then l.width - 1 - x else x, if FlipsY(l.invert) then l.height - 1 - y else y)
  }

  /** Every LED below `width * height` is the image of an in-range point. */
  lemma MapOnto(l: Rectangular, i: nat)
    requires Fits(l) && i < l.width * l.height
    ensures 0 < l.width
    ensures InMatrix(l, PointOf(l, i)) && Map(l, PointOf(l, i)) == Wrappers.Some(i)
  {
    if l.width == 0 {
      assert false;
    }
    DivModBounds(i, l.width, l.height);
    var p := PointOf(l, i);
    MapInRange(l, p);
  }

  lemma DivModBounds(i: int, w: int, h: int)
    requires 0 < w && 0 <= i < w * h
    ensures i == (i / w) * w + i % w && 0 <= i % w < w && 0 <= i / w < h
  {
    var q := i / w;
    if q >= h {
      assert false;
    }
  }
}
