/**
 * `cube/src/ledc.rs`: the cube's LED driver seen from the games.  A frame
 * of eight row bytes becomes 64 on/off pixels; a score becomes two digit
 * glyphs side by side.  Drawing into the matrix and flushing it are not
 * part of this module.
 */
module CubeLedc {
  import opened Common
  import opened BitFrame
  import CubeRand

  /** `Pixel<Rgb888>` as `write_bytes` builds it: `BinaryColor::On` or `Off`. */
  datatype BinaryPixel = BinaryPixel(pos: Point, on: bool)

  /** An eight-row glyph, the `[u8; 8]` that `mapping::num_map` returns. */
  type Glyph = s: seq<bv8> | |s| == 8 witness [0, 0, 0, 0, 0, 0, 0, 0]

  /** `pixels` are the 64 pixels of `rows`, row by row: (x, y) is on exactly when it is lit in `rows`. */
  ghost predicate Shows(pixels: seq<BinaryPixel>, rows: Glyph)
  {
    |pixels| == 64 &&
    forall y, x | 0 <= y < 8 && 0 <= x < 8 :: pixels[8 * y + x] == BinaryPixel(Point(x, y), Lit(rows, x, y))
  }

  /**
   * `write_bytes(data)`: the 64 pixels row by row, pixel (x, y) on exactly
   * when bit 7-x of `data[y]` is set.  The 64-entry vector never overflows,
   * so no push is lost.
   */
  method WriteBytes(data: Glyph) returns (pixels: seq<BinaryPixel>)
    ensures Shows(pixels, data)
  {
    pixels := [];
    for y := 0 to 8
      invariant |pixels| == 8 * y
      invariant forall y', x | 0 <= y' < y && 0 <= x < 8 ::
                  pixels[8 * y' + x] == BinaryPixel(Point(x, y'), Lit(data, x, y'))
    {
      for x := 0 to 8
        invariant |pixels| == 8 * y + x
        invariant forall y', x' | 0 <= y' < y && 0 <= x' < 8 ::
                    pixels[8 * y' + x'] == BinaryPixel(Point(x', y'), Lit(data, x', y'))
        invariant forall x' | 0 <= x' < x :: pixels[8 * y + x'] == BinaryPixel(Point(x', y), Lit(data, x', y))
      {
        var onOff := data[y] & Mask(x) > 0;
        pixels := pixels + [BinaryPixel(Point(x, y), onOff)];
      }
    }
  }

  /** `clear`: `write_bytes([0; 8])`, all 64 pixels off. */
  method Clear() returns (pixels: seq<BinaryPixel>)
    ensures |pixels| == 64
    ensures forall i | 0 <= i < 64 :: !pixels[i].on
  {
    pixels := WriteBytes(Blank);
    forall i | 0 <= i < 64
      ensures !pixels[i].on
    {
      assert Shows(pixels, Blank);
      var y, x := i / 8, i % 8;
      assert i == 8 * y + x;
      BlankUnlit(x, y);
    }
  }

  /** `draw_score`'s split: tens `score / 10` and units `score % 10`. */
  function Digits(score: CubeRand.U8): (d: (CubeRand.U8, CubeRand.U8))
    ensures d.0 <= 25 && d.1 <= 9 && score == 10 * d.0 + d.1
  {
    (score / 10, score % 10)
  }

  /** One row of `draw_score`'s combination, `(dn | (sn >> 4)) >> 1`. */
  function CombineRow(d: bv8, s: bv8): bv8
  {
    (d | (s >> 4)) >> 1
  }

  /** The combined rows `k..8`. */
  function CombineFrom(dn: Glyph, sn: Glyph, k: nat): (rows: seq<bv8>)
    requires k <= 8
    ensures |rows| == 8 - k
    ensures forall i | 0 <= i < 8 - k :: rows[i] == CombineRow(dn[k + i], sn[k + i])
    decreases 8 - k
  {
    if k == 8 then [] else [CombineRow(dn[k], sn[k])] + CombineFrom(dn, sn, k + 1)
  }

  /** The frame `draw_score` hands to `write_bytes`. */
  function CombineRows(dn: Glyph, sn: Glyph): (rows: Glyph)
    ensures forall i | 0 <= i < 8 :: rows[i] == CombineRow(dn[i], sn[i])
  {
    CombineFrom(dn, sn, 0)
  }

  /**
   * `draw_score`'s glyph combination: the tens glyph, the units glyph
   * shifted four columns right, the two OR-ed and the whole shifted one
   * more column right.
   */
  method Combine(dn: Glyph, sn: Glyph) returns (buf: Glyph)
    ensures buf == CombineRows(dn, sn)
  {
    var work: seq<bv8> := [0, 0, 0, 0, 0, 0, 0, 0];
    var s: seq<bv8> := sn;
    for i := 0 to 8
      invariant |work| == 8 && forall k | 0 <= k < i :: work[k] == dn[k]
    {
      work := work[i := dn[i]];
    }
    for i := 0 to 8
      invariant |s| == 8 && forall k | 0 <= k < 8 :: s[k] == if k < i then sn[k] >> 4 else sn[k]
    {
      s := s[i := s[i] >> 4];
    }
    for i := 0 to 8
      invariant |work| == 8 && forall k | 0 <= k < 8 :: work[k] == if k < i then dn[k] | s[k] else dn[k]
    {
      work := work[i := work[i] | s[i]];
    }
    for i := 0 to 8
      invariant |work| == 8
      invariant forall k | 0 <= k < 8 :: work[k] == if k < i then (dn[k] | s[k]) >> 1 else dn[k] | s[k]
    {
      work := work[i := work[i] >> 1];
    }
    buf := work;
  }

  /**
   * In the combined score frame column 0 is always dark, columns 1..4 show
   * the tens glyph's columns 0..3, and columns 5..7 show either glyph:
   * the tens glyph's columns 4..6 or the units glyph's columns 0..2.
   */
  lemma CombineLit(dn: Glyph, sn: Glyph, x: int, y: int)
    requires 0 <= x < 8 && 0 <= y < 8
    ensures Lit(CombineRows(dn, sn), x, y) <==>
            1 <= x && (Lit(dn, x - 1, y) || (5 <= x && Lit(sn, x - 5, y)))
  {
    var c := CombineRow(dn[y], sn[y]);
    assert Lit(CombineRows(dn, sn), x, y) <==> c & Mask(x) != 0;
    ShiftedBit(dn[y], sn[y], x);
    assert 1 <= x ==> (Lit(dn, x - 1, y) <==> dn[y] & Mask(x - 1) != 0);
    assert 5 <= x ==> (Lit(sn, x - 5, y) <==> sn[y] & Mask(x - 5) != 0);
  }

  lemma ShiftedBit(d: bv8, s: bv8, x: int)
    requires 0 <= x < 8
    ensures ShiftedSpec(d, s, x)
  {
    match x
    case 0 => ShiftedBit0(d, s, x);
    case 1 => ShiftedBit1(d, s, x);
    case 2 => ShiftedBit2(d, s, x);
    case 3 => ShiftedBit3(d, s, x);
    case 4 => ShiftedBit4(d, s, x);
    case 5 => ShiftedBit5(d, s, x);
    case 6 => ShiftedBit6(d, s, x);
    case 7 => ShiftedBit7(d, s, x);
  }

  /** Column `x` of a combined row: dark at 0, else column `x - 1` of `d` or column `x - 5` of `s`. */
  predicate ShiftedSpec(d: bv8, s: bv8, x: int)
    requires 0 <= x < 8
  {
    CombineRow(d, s) & Mask(x) != 0 <==>
    1 <= x && (d & Mask(x - 1) != 0 || (5 <= x && s & Mask(x - 5) != 0))
  }

  lemma ShiftedBit0(d: bv8, s: bv8, x: int)
    requires x == 0
    ensures ShiftedSpec(d, s, x)
  {
    assert Mask(x) == 0x80;
    assert CombineRow(d, s) & 0x80 != 0 <==> false;
  }

  lemma ShiftedBit1(d: bv8, s: bv8, x: int)
    requires x == 1
    ensures ShiftedSpec(d, s, x)
  {
    assert Mask(x) == 0x40 && Mask(x - 1) == 0x80;
    assert CombineRow(d, s) & 0x40 != 0 <==> d & 0x80 != 0;
  }

  lemma ShiftedBit2(d: bv8, s: bv8, x: int)
    requires x == 2
    ensures ShiftedSpec(d, s, x)
  {
    assert Mask(x) == 0x20 && Mask(x - 1) == 0x40;
    assert CombineRow(d, s) & 0x20 != 0 <==> d & 0x40 != 0;
  }

  lemma ShiftedBit3(d: bv8, s: bv8, x: int)
    requires x == 3
    ensures ShiftedSpec(d, s, x)
  {
    assert Mask(x) == 0x10 && Mask(x - 1) == 0x20;
    assert CombineRow(d, s) & 0x10 != 0 <==> d & 0x20 != 0;
  }

  lemma ShiftedBit4(d: bv8, s: bv8, x: int)
    requires x == 4
    ensures ShiftedSpec(d, s, x)
  {
    assert Mask(x) == 0x08 && Mask(x - 1) == 0x10;
    assert CombineRow(d, s) & 0x08 != 0 <==> d & 0x10 != 0;
  }

  lemma ShiftedBit5(d: bv8, s: bv8, x: int)
    requires x == 5
    ensures ShiftedSpec(d, s, x)
  {
    assert Mask(x) == 0x04 && Mask(x - 1) == 0x08 && Mask(x - 5) == 0x80;
    assert CombineRow(d, s) & 0x04 != 0 <==> d & 0x08 != 0 || s & 0x80 != 0;
  }

  lemma ShiftedBit6(d: bv8, s: bv8, x: int)
    requires x == 6
    ensures ShiftedSpec(d, s, x)
  {
    assert Mask(x) == 0x02 && Mask(x - 1) == 0x04 && Mask(x - 5) == 0x40;
    assert CombineRow(d, s) & 0x02 != 0 <==> d & 0x04 != 0 || s & 0x40 != 0;
  }

  lemma ShiftedBit7(d: bv8, s: bv8, x: int)
    requires x == 7
    ensures ShiftedSpec(d, s, x)
  {
    assert Mask(x) == 0x01 && Mask(x - 1) == 0x02 && Mask(x - 5) == 0x20;
    assert CombineRow(d, s) & 0x01 != 0 <==> d & 0x02 != 0 || s & 0x20 != 0;
  }

  /**
   * `draw_score(score)` with the digit glyph table `numMap` as a parameter
   * (the table is not part of this model): the pixels it writes are the
   * combination of the tens and the units glyph.
   */
  method DrawScore(score: CubeRand.U8, numMap: CubeRand.U8 -> Glyph) returns (pixels: seq<BinaryPixel>)
    ensures Shows(pixels, CombineRows(numMap(score / 10), numMap(score % 10)))
  {
    var _ := Clear();
    var (tens, units) := Digits(score);
    var dn := numMap(tens);
    var sn := numMap(units);
    var buf := Combine(dn, sn);
    pixels := WriteBytes(buf);
  }
}
