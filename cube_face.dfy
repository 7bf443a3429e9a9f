/**
 * `cube/src/face.rs`: the cube's face, an 8x8 one-bit buffer that the eye
 * and mouth sprites are drawn into pixel by pixel.  Coordinates are `u8`;
 * the sprite offsets `x + k` and `7 - y - 1` wrap round modulo 256 as in a
 * release build.
 */
module CubeFace {
  import opened Common
  import opened BitFrame
  import CubeRand

  /** `u8` arithmetic as a release build does it. */
  function Wrap(v: int): (r: CubeRand.U8)
    ensures 0 <= v < 256 ==> r == v
  {
    v % 256
  }

  /** The pixels `slack_eyes(x, y)` sets: two 2x2 eyes on rows 7-y and 6-y. */
  function SlackEyePoints(x: CubeRand.U8, y: CubeRand.U8): (pts: seq<Point>)
    ensures |pts| == 8
  {
    var top, low := Wrap(7 - y), Wrap(7 - y - 1);
    [Point(x, top), Point(x, low), Point(Wrap(x + 1), top), Point(Wrap(x + 1), low),
     Point(Wrap(x + 4), top), Point(Wrap(x + 4), low), Point(Wrap(x + 5), top), Point(Wrap(x + 5), low)]
  }

  const CloseEyePoints: seq<Point> :=
    [Point(0, 3), Point(1, 3), Point(2, 3), Point(5, 3), Point(6, 3), Point(7, 3)]
  const LaughEyePoints: seq<Point> :=
    [Point(0, 3), Point(1, 2), Point(2, 3), Point(5, 3), Point(6, 2), Point(7, 3)]
  const AngryEyePoints: seq<Point> :=
    [Point(1, 1), Point(1, 3), Point(2, 2), Point(3, 3), Point(4, 3), Point(5, 2), Point(6, 1), Point(6, 3)]
  const SlightlyClosedEyePoints: seq<Point> :=
    [Point(1, 4), Point(1, 3), Point(2, 3), Point(0, 3), Point(6, 4), Point(5, 3), Point(6, 3), Point(7, 3)]
  const SlackMouthPoints: seq<Point> := [Point(3, 5), Point(4, 5)]
  const PowerlessMouthPoints: seq<Point> := [Point(2, 6), Point(3, 6), Point(4, 6), Point(5, 6)]
  const PoutMouthPoints: seq<Point> := [Point(3, 6), Point(3, 5), Point(4, 6), Point(4, 5)]
  const TerrifyMouthPoints: seq<Point> :=
    [Point(2, 6), Point(2, 5), Point(3, 7), Point(3, 4), Point(4, 7), Point(4, 4), Point(5, 6), Point(5, 5)]
  const LaughMouthPoints: seq<Point> := [Point(3, 6), Point(4, 6), Point(2, 5), Point(5, 5)]
  const AngryMouthPoints: seq<Point> := [Point(3, 5), Point(4, 5), Point(2, 6), Point(5, 6)]

  /** `slack_face(x, y)`: the frame it leaves behind, whatever was there before. */
  function SlackFace(x: CubeRand.U8, y: CubeRand.U8): (rows: seq<bv8>)
  {
    SetAll(SetAll(Blank, SlackEyePoints(x, y)), SlackMouthPoints)
  }

  /** `pout_face(x, y)`: the frame it leaves behind. */
  function PoutFace(x: CubeRand.U8, y: CubeRand.U8): (rows: seq<bv8>)
  {
    SetAll(SetAll(Blank, SlackEyePoints(x, y)), PoutMouthPoints)
  }

  /** The slack face lights exactly its eyes and its mouth. */
  lemma SlackFaceLit(x: CubeRand.U8, y: CubeRand.U8, px: int, py: int)
    requires OnFrame(px, py)
    ensures Lit(SlackFace(x, y), px, py) <==>
            Point(px, py) in SlackEyePoints(x, y) || Point(px, py) in SlackMouthPoints
  {
    SetAllLit(SetAll(Blank, SlackEyePoints(x, y)), SlackMouthPoints, px, py);
    SetAllOnBlank(SlackEyePoints(x, y), px, py);
  }

  /** The pout face lights exactly its eyes and its mouth. */
  lemma PoutFaceLit(x: CubeRand.U8, y: CubeRand.U8, px: int, py: int)
    requires OnFrame(px, py)
    ensures Lit(PoutFace(x, y), px, py) <==>
            Point(px, py) in SlackEyePoints(x, y) || Point(px, py) in PoutMouthPoints
  {
    SetAllLit(SetAll(Blank, SlackEyePoints(x, y)), PoutMouthPoints, px, py);
    SetAllOnBlank(SlackEyePoints(x, y), px, py);
  }

  /**
   * For a face placed on the screen (x <= 2, 1 <= y <= 7) the eyes sit on
   * rows 7-y and 6-y and columns x, x+1, x+4 and x+5 and nowhere else.
   */
  lemma SlackEyesPlacement(x: CubeRand.U8, y: CubeRand.U8, px: int, py: int)
    requires x <= 2 && 1 <= y <= 7 && OnFrame(px, py)
    ensures Point(px, py) in SlackEyePoints(x, y) <==>
            (py == 7 - y || py == 6 - y) && (px == x || px == x + 1 || px == x + 4 || px == x + 5)
  {
  }

  /**
   * With `y == 7` the lower eye row is `7 - 7 - 1`, which wraps to 255 and
   * falls off the screen: only the top row of each eye is drawn.
   */
  lemma SlackEyesClippedAtTop(x: CubeRand.U8)
    requires x <= 2
    ensures forall i | 0 <= i < 8 :: SlackEyePoints(x, 7)[i].y in {0, 255}
  {
  }

  class Face {
    /** `data: [u8; 8]`. */
    const data: array<bv8>

    ghost predicate Valid()
      reads this
    {
      data.Length == 8
    }

    /** `Face::default()`: a blank face. */
    constructor ()
      ensures Valid() && data[..] == Blank && fresh(data)
    {
      data := new bv8[8](_ => 0);
      new;
      assert data[..] == Blank;
    }

    /** `set_work(x, y)`: light pixel (x, y); nothing happens off the screen. */
    method SetWork(x: CubeRand.U8, y: CubeRand.U8)
      requires Valid()
      modifies data
      ensures data[..] == SetBit(old(data[..]), x, y)
    {
      if x > 7 || y > 7 {
        return;
      }
      data[y] := data[y] | Mask(x);
    }

    /** `clear_work(x, y)`: flips pixel (x, y) (an XOR), as written. */
    method ClearWork(x: CubeRand.U8, y: CubeRand.U8)
      requires Valid()
      modifies data
      ensures data[..] == ToggleBit(old(data[..]), x, y)
    {
      if x > 7 || y > 7 {
        return;
      }
      data[y] := data[y] ^ Mask(x);
    }

    /** `clear`: every row zero. */
    method Clear()
      requires Valid()
      modifies data
      ensures data[..] == Blank
    {
      for i := 0 to 8
        invariant forall k | 0 <= k < i :: data[k] == 0
      {
        data[i] := 0;
      }
      assert data[..] == Blank;
    }

    /** Each sprite writer sets its own pixels one after the other. */
    method SlackEyes(x: CubeRand.U8, y: CubeRand.U8)
      requires Valid()
      modifies data
      ensures data[..] == SetAll(old(data[..]), SlackEyePoints(x, y))
    {
      var pts := SlackEyePoints(x, y);
      ghost var d0 := data[..];
      SetWork(x, Wrap(7 - y));
      SetWork(x, Wrap(7 - y - 1));
      SetWork(Wrap(x + 1), Wrap(7 - y));
      SetWork(Wrap(x + 1), Wrap(7 - y - 1));
      SetWork(Wrap(x + 4), Wrap(7 - y));
      SetWork(Wrap(x + 4), Wrap(7 - y - 1));
      SetWork(Wrap(x + 5), Wrap(7 - y));
      SetWork(Wrap(x + 5), Wrap(7 - y - 1));
      SetAllUnfold8(d0, pts);
    }

    method CloseEyes()
      requires Valid()
      modifies data
      ensures data[..] == SetAll(old(data[..]), CloseEyePoints)
    {
      ghost var d0 := data[..];
      SetWork(0, 3);
      SetWork(1, 3);
      SetWork(2, 3);
      SetWork(5, 3);
      SetWork(6, 3);
      SetWork(7, 3);
      SetAllUnfold6(d0, CloseEyePoints);
    }

    method LaughEyes()
      requires Valid()
      modifies data
      ensures data[..] == SetAll(old(data[..]), LaughEyePoints)
    {
      ghost var d0 := data[..];
      SetWork(0, 3);
      SetWork(1, 2);
      SetWork(2, 3);
      SetWork(5, 3);
      SetWork(6, 2);
      SetWork(7, 3);
      SetAllUnfold6(d0, LaughEyePoints);
    }

    method AngryEyes()
      requires Valid()
      modifies data
      ensures data[..] == SetAll(old(data[..]), AngryEyePoints)
    {
      ghost var d0 := data[..];
      SetWork(1, 1);
      SetWork(1, 3);
      SetWork(2, 2);
      SetWork(3, 3);
      SetWork(4, 3);
      SetWork(5, 2);
      SetWork(6, 1);
      SetWork(6, 3);
      SetAllUnfold8(d0, AngryEyePoints);
    }

    method SlightlyClosedEyes()
      requires Valid()
      modifies data
      ensures data[..] == SetAll(old(data[..]), SlightlyClosedEyePoints)
    {
      ghost var d0 := data[..];
      SetWork(1, 4);
      SetWork(1, 3);
      SetWork(2, 3);
      SetWork(0, 3);
      SetWork(6, 4);
      SetWork(5, 3);
      SetWork(6, 3);
      SetWork(7, 3);
      SetAllUnfold8(d0, SlightlyClosedEyePoints);
    }

    method SlackMouth()
      requires Valid()
      modifies data
      ensures data[..] == SetAll(old(data[..]), SlackMouthPoints)
    {
      ghost var d0 := data[..];
      SetWork(3, 5);
      SetWork(4, 5);
      SetAllUnfold2(d0, SlackMouthPoints);
    }

    method PowerlessMouth()
      requires Valid()
      modifies data
      ensures data[..] == SetAll(old(data[..]), PowerlessMouthPoints)
    {
      ghost var d0 := data[..];
      SetWork(2, 6);
      SetWork(3, 6);
      SetWork(4, 6);
      SetWork(5, 6);
      SetAllUnfold4(d0, PowerlessMouthPoints);
    }

    method PoutMouth()
      requires Valid()
      modifies data
      ensures data[..] == SetAll(old(data[..]), PoutMouthPoints)
    {
      ghost var d0 := data[..];
      SetWork(3, 6);
      SetWork(3, 5);
      SetWork(4, 6);
      SetWork(4, 5);
      SetAllUnfold4(d0, PoutMouthPoints);
    }

    method TerrifyMouth()
      requires Valid()
      modifies data
      ensures data[..] == SetAll(old(data[..]), TerrifyMouthPoints)
    {
      ghost var d0 := data[..];
      SetWork(2, 6);
      SetWork(2, 5);
      SetWork(3, 7);
      SetWork(3, 4);
      SetWork(4, 7);
      SetWork(4, 4);
      SetWork(5, 6);
      SetWork(5, 5);
      SetAllUnfold8(d0, TerrifyMouthPoints);
    }

    method LaughMouth()
      requires Valid()
      modifies data
      ensures data[..] == SetAll(old(data[..]), LaughMouthPoints)
    {
      ghost var d0 := data[..];
      SetWork(3, 6);
      SetWork(4, 6);
      SetWork(2, 5);
      SetWork(5, 5);
      SetAllUnfold4(d0, LaughMouthPoints);
    }

    method AngryMouth()
      requires Valid()
      modifies data
      ensures data[..] == SetAll(old(data[..]), AngryMouthPoints)
    {
      ghost var d0 := data[..];
      SetWork(3, 5);
      SetWork(4, 5);
      SetWork(2, 6);
      SetWork(5, 6);
      SetAllUnfold4(d0, AngryMouthPoints);
    }

    /** `slack_face`: clear, the slack eyes at (x, y), the slack mouth. */
    method SlackFaceAt(x: CubeRand.U8, y: CubeRand.U8)
      requires Valid()
      modifies data
      ensures data[..] == SlackFace(x, y)
    {
      Clear();
      SlackEyes(x, y);
      SlackMouth();
    }

    /** `pout_face`: clear, the slack eyes at (x, y), the pout mouth. */
    method PoutFaceAt(x: CubeRand.U8, y: CubeRand.U8)
      requires Valid()
      modifies data
      ensures data[..] == PoutFace(x, y)
    {
      Clear();
      SlackEyes(x, y);
      PoutMouth();
    }
  }

  // ------------------------------------------ unfolding SetAll over a sprite

  lemma SetAllCons(rows: seq<bv8>, pts: seq<Point>)
    requires |rows| == 8 && pts != []
    ensures SetAll(rows, pts) == SetAll(SetBit(rows, pts[0].x, pts[0].y), pts[1..])
  {
  }

  lemma SetAllUnfold2(r: seq<bv8>, p: seq<Point>)
    requires |r| == 8 && |p| == 2
    ensures SetAll(r, p) == SetBit(SetBit(r, p[0].x, p[0].y), p[1].x, p[1].y)
  {
    var r1 := SetBit(r, p[0].x, p[0].y);
    assert SetAll(r1, p[1..]) == SetAll(SetBit(r1, p[1].x, p[1].y), p[2..]);
  }

  lemma SetAllUnfold4(r: seq<bv8>, p: seq<Point>)
    requires |r| == 8 && |p| == 4
    ensures SetAll(r, p) ==
            SetBit(SetBit(SetBit(SetBit(r, p[0].x, p[0].y), p[1].x, p[1].y), p[2].x, p[2].y), p[3].x, p[3].y)
  {
    var r2 := SetBit(SetBit(r, p[0].x, p[0].y), p[1].x, p[1].y);
    SetAllSplit(r, p, 2);
    SetAllUnfold2(r, p[..2]);
    SetAllUnfold2(r2, p[2..]);
  }

  lemma SetAllUnfold6(r: seq<bv8>, p: seq<Point>)
    requires |r| == 8 && |p| == 6
    ensures SetAll(r, p) ==
            SetBit(SetBit(SetBit(SetBit(SetBit(SetBit(r, p[0].x, p[0].y), p[1].x, p[1].y),
                   p[2].x, p[2].y), p[3].x, p[3].y), p[4].x, p[4].y), p[5].x, p[5].y)
  {
    SetAllSplit(r, p, 4);
    SetAllUnfold4(r, p[..4]);
    SetAllUnfold2(SetAll(r, p[..4]), p[4..]);
  }

  lemma SetAllUnfold8(r: seq<bv8>, p: seq<Point>)
    requires |r| == 8 && |p| == 8
    ensures SetAll(r, p) ==
            SetBit(SetBit(SetBit(SetBit(SetBit(SetBit(SetBit(SetBit(r, p[0].x, p[0].y), p[1].x, p[1].y),
                   p[2].x, p[2].y), p[3].x, p[3].y), p[4].x, p[4].y), p[5].x, p[5].y),
                   p[6].x, p[6].y), p[7].x, p[7].y)
  {
    SetAllSplit(r, p, 4);
    SetAllUnfold4(r, p[..4]);
    SetAllUnfold4(SetAll(r, p[..4]), p[4..]);
  }

  lemma SetAllSplit(r: seq<bv8>, p: seq<Point>, k: nat)
    requires |r| == 8 && k <= |p|
    ensures SetAll(r, p) == SetAll(SetAll(r, p[..k]), p[k..])
  {
    SetAllAppend(r, p[..k], p[k..]);
    assert p[..k] + p[k..] == p;
  }

  // ------------------------------------------------ clear_work, as written

  /**
   * `clear_work` is meant to darken a pixel, but on a dark pixel it lights
   * it: on a blank face, `clear_work(0, 0)` leaves pixel (0, 0) lit.
   */
  lemma ClearWorkLightsDarkPixel()
    ensures Lit(ToggleBit(Blank, 0, 0), 0, 0)
    ensures !Lit(ClearBit(Blank, 0, 0), 0, 0)
  {
    ToggleBitLit(Blank, 0, 0, 0, 0);
    ClearBitLit(Blank, 0, 0, 0, 0);
  }
}
