/**
 * `src/face.rs`: the first cube's face buffer `ram`.  `work(x, y, state)`
 * counts y from the bottom, so pixel (x, y) is bit 7-x of `ram[7 - y]`.
 * The sprites light the same frame pixels as the second cube's
 * (`cube/src/face.rs`), so their point lists are shared with `CubeFace`;
 * only the angry eyes are drawn in another order.
 */
module Expressions {
  import opened Common
  import opened BitFrame
  import opened CubeFace
  import CubeRand

  /** The angry eyes in the order `src/face.rs` draws them, as frame pixels. */
  const AngryEyeOrder: seq<Point> :=
    [Point(1, 3), Point(1, 1), Point(2, 2), Point(3, 3), Point(4, 3), Point(5, 2), Point(6, 1), Point(6, 3)]

  /** Both orders light the same pixels. */
  lemma AngryEyeOrderSamePixels(x: int, y: int)
    requires OnFrame(x, y)
    ensures Lit(SetAll(Blank, AngryEyeOrder), x, y) <==> Lit(SetAll(Blank, AngryEyePoints), x, y)
  {
    SetAllOnBlank(AngryEyeOrder, x, y);
    SetAllOnBlank(AngryEyePoints, x, y);
  }

  /** The frame the dormancy and rouse animations end on: slack eyes at (1, 4), slack mouth. */
  function RestingFace(): (rows: seq<bv8>)
    ensures rows == SlackFace(1, 4)
  {
    SetAll(SetAll(Blank, SlackEyePoints(1, 4)), SlackMouthPoints)
  }

  /** The frame `break_record_face` ends on: slack eyes at (1, 4), laughing mouth. */
  function BreakRecordEnd(): (rows: seq<bv8>)
  {
    SetAll(SetAll(Blank, SlackEyePoints(1, 4)), LaughMouthPoints)
  }

  /** The resting face lights its two 2x2 eyes on rows 2 and 3 and its mouth on row 5, nothing else. */
  lemma RestingFaceLit(px: int, py: int)
    requires OnFrame(px, py)
    ensures Lit(RestingFace(), px, py) <==>
            ((py == 2 || py == 3) && px in {1, 2, 5, 6}) || (py == 5 && px in {3, 4})
  {
    SlackFaceLit(1, 4, px, py);
    SlackEyesPlacement(1, 4, px, py);
  }

  class Face {
    /** `ram: [u8; 8]`. */
    const ram: array<bv8>

    ghost predicate Valid()
      reads this
    {
      ram.Length == 8
    }

    /** `Face::new()`: all dark. */
    constructor ()
      ensures Valid() && ram[..] == Blank && fresh(ram)
    {
      ram := new bv8[8](_ => 0);
      new;
      assert ram[..] == Blank;
    }

    /**
     * `work(x, y, state)`: state 1 lights and state 0 darkens pixel (x, y)
     * with y counted from the bottom; any other state, or x > 7, changes
     * nothing.  Row `7 - y` is read before the range check, so y > 7 panics.
     */
    method Work(x: CubeRand.U8, y: CubeRand.U8, state: CubeRand.U8)
      requires Valid() && y <= 7
      modifies ram
      ensures state == 1 ==> ram[..] == SetBit(old(ram[..]), x, 7 - y)
      ensures state == 0 ==> ram[..] == ClearBit(old(ram[..]), x, 7 - y)
      ensures state > 1 ==> ram[..] == old(ram[..])
    {
      if state == 1 {
        SetPixel(ram, x, 7 - y);
      } else if state == 0 {
        ClearPixel(ram, x, 7 - y);
      }
    }

    /** `clear`: all dark. */
    method Clear()
      requires Valid()
      modifies ram
      ensures ram[..] == Blank
    {
      for i := 0 to 8
        invariant forall k | 0 <= k < i :: ram[k] == 0
      {
        ram[i] := 0;
      }
      assert ram[..] == Blank;
    }

    /** `slack_eyes(x, y)`: two 2x2 eyes with their lower-left pixels at (x, y) and (x + 4, y). */
    method SlackEyes(x: CubeRand.U8, y: CubeRand.U8)
      requires Valid() && y <= 6
      modifies ram
      ensures ram[..] == SetAll(old(ram[..]), SlackEyePoints(x, y))
    {
      ghost var d0 := ram[..];
      Work(x, y, 1);
      Work(x, y + 1, 1);
      Work(Wrap(x + 1), y, 1);
      Work(Wrap(x + 1), y + 1, 1);
      Work(Wrap(x + 4), y, 1);
      Work(Wrap(x + 4), y + 1, 1);
      Work(Wrap(x + 5), y, 1);
      Work(Wrap(x + 5), y + 1, 1);
      SetAllUnfold8(d0, SlackEyePoints(x, y));
    }

    method CloseEyes()
      requires Valid()
      modifies ram
      ensures ram[..] == SetAll(old(ram[..]), CloseEyePoints)
    {
      ghost var d0 := ram[..];
      Work(0, 4, 1);
      Work(1, 4, 1);
      Work(2, 4, 1);
      Work(5, 4, 1);
      Work(6, 4, 1);
      Work(7, 4, 1);
      SetAllUnfold6(d0, CloseEyePoints);
    }

    method LaughEyes()
      requires Valid()
      modifies ram
      ensures ram[..] == SetAll(old(ram[..]), LaughEyePoints)
    {
      ghost var d0 := ram[..];
      Work(0, 4, 1);
      Work(1, 5, 1);
      Work(2, 4, 1);
      Work(5, 4, 1);
      Work(6, 5, 1);
      Work(7, 4, 1);
      SetAllUnfold6(d0, LaughEyePoints);
    }

    method AngryEyes()
      requires Valid()
      modifies ram
      ensures ram[..] == SetAll(old(ram[..]), AngryEyeOrder)
    {
      ghost var d0 := ram[..];
      Work(1, 4, 1);
      Work(1, 6, 1);
      Work(2, 5, 1);
      Work(3, 4, 1);
      Work(4, 4, 1);
      Work(5, 5, 1);
      Work(6, 6, 1);
      Work(6, 4, 1);
      SetAllUnfold8(d0, AngryEyeOrder);
    }

    method SlightlyClosedEyes()
      requires Valid()
      modifies ram
      ensures ram[..] == SetAll(old(ram[..]), SlightlyClosedEyePoints)
    {
      ghost var d0 := ram[..];
      Work(1, 3, 1);
      Work(1, 4, 1);
      Work(2, 4, 1);
      Work(0, 4, 1);
      Work(6, 3, 1);
      Work(5, 4, 1);
      Work(6, 4, 1);
      Work(7, 4, 1);
      SetAllUnfold8(d0, SlightlyClosedEyePoints);
    }

    method SlackMouth()
      requires Valid()
      modifies ram
      ensures ram[..] == SetAll(old(ram[..]), SlackMouthPoints)
    {
      ghost var d0 := ram[..];
      Work(3, 2, 1);
      Work(4, 2, 1);
      SetAllUnfold2(d0, SlackMouthPoints);
    }

    method PowerlessMouth()
      requires Valid()
      modifies ram
      ensures ram[..] == SetAll(old(ram[..]), PowerlessMouthPoints)
    {
      ghost var d0 := ram[..];
      Work(2, 1, 1);
      Work(3, 1, 1);
      Work(4, 1, 1);
      Work(5, 1, 1);
      SetAllUnfold4(d0, PowerlessMouthPoints);
    }

    method PoutMouth()
      requires Valid()
      modifies ram
      ensures ram[..] == SetAll(old(ram[..]), PoutMouthPoints)
    {
      ghost var d0 := ram[..];
      Work(3, 1, 1);
      Work(3, 2, 1);
      Work(4, 1, 1);
      Work(4, 2, 1);
      SetAllUnfold4(d0, PoutMouthPoints);
    }

    method TerrifyMouth()
      requires Valid()
      modifies ram
      ensures ram[..] == SetAll(old(ram[..]), TerrifyMouthPoints)
    {
      ghost var d0 := ram[..];
      Work(2, 1, 1);
      Work(2, 2, 1);
      Work(3, 0, 1);
      Work(3, 3, 1);
      Work(4, 0, 1);
      Work(4, 3, 1);
      Work(5, 1, 1);
      Work(5, 2, 1);
      SetAllUnfold8(d0, TerrifyMouthPoints);
    }

    method LaughMouth()
      requires Valid()
      modifies ram
      ensures ram[..] == SetAll(old(ram[..]), LaughMouthPoints)
    {
      ghost var d0 := ram[..];
      Work(3, 1, 1);
      Work(4, 1, 1);
      Work(2, 2, 1);
      Work(5, 2, 1);
      SetAllUnfold4(d0, LaughMouthPoints);
    }

    method AngryMouth()
      requires Valid()
      modifies ram
      ensures ram[..] == SetAll(old(ram[..]), AngryMouthPoints)
    {
      ghost var d0 := ram[..];
      Work(3, 2, 1);
      Work(4, 2, 1);
      Work(2, 1, 1);
      Work(5, 1, 1);
      SetAllUnfold4(d0, AngryMouthPoints);
    }

    /**
     * `dormancy_face`: the looking-around, laughing, pouting and blinking
     * frames one after the other; each starts from `clear`, so the face is
     * left on its last frame.
     */
    method DormancyFace()
      requires Valid()
      modifies ram
      ensures ram[..] == RestingFace()
    {
      var ex, ey := 1, 4;
      Clear(); SlackMouth(); SlackEyes(ex, ey);
      Clear(); SlackEyes(ex - 1, ey); SlackMouth();
      Clear(); SlackEyes(ex, ey); SlackMouth();
      Clear(); SlackEyes(ex + 1, ey); SlackMouth();
      Clear(); SlackEyes(ex, ey); SlackMouth();
      Clear(); SlackEyes(ex, ey); LaughMouth();
      Clear(); CloseEyes(); LaughMouth();
      Clear(); SlackEyes(ex, ey); LaughMouth();
      Clear(); CloseEyes(); LaughMouth();
      Clear(); SlackEyes(ex, ey); LaughMouth();
      Clear(); CloseEyes(); LaughMouth();
      Clear(); SlackEyes(ex, ey); LaughMouth();
      Clear(); SlackEyes(ex, ey); SlackMouth();
      Clear(); SlackEyes(ex, ey); PoutMouth();
      Clear(); SlackEyes(ex, ey); SlackMouth();
      Clear(); SlackEyes(ex, ey); PoutMouth();
      Clear(); SlackEyes(ex, ey); SlackMouth();
      Clear(); SlackEyes(ex, ey); PoutMouth();
      Clear(); SlackEyes(ex, ey); SlackMouth();
      Clear(); SlackEyes(ex, ey); SlackMouth();
      Clear(); SlackEyes(ex, ey); PoutMouth();
      Clear(); SlackEyes(ex, ey); SlackMouth();
      Clear(); SlackEyes(ex, ey); PoutMouth();
      Clear(); SlackEyes(ex, ey); SlackMouth();
      Clear(); SlackEyes(ex, ey); PoutMouth();
      Clear(); SlackEyes(ex, ey); SlackMouth();
      Clear(); CloseEyes(); SlackMouth();
      Clear(); SlackEyes(ex, ey); SlackMouth();
      Clear(); CloseEyes(); SlackMouth();
      Clear(); SlackEyes(ex, ey); SlackMouth();
    }

    /** `rouse_face`: blink twice, ending on the resting face. */
    method RouseFace()
      requires Valid()
      modifies ram
      ensures ram[..] == RestingFace()
    {
      var ex, ey := 1, 4;
      Clear(); CloseEyes(); SlackMouth();
      Clear(); SlackEyes(ex, ey); SlackMouth();
      Clear(); CloseEyes(); SlackMouth();
      Clear(); SlackEyes(ex, ey); SlackMouth();
    }

    /** `break_record_face`: a startled face that blinks three times, then laughs. */
    method BreakRecordFace()
      requires Valid()
      modifies ram
      ensures ram[..] == BreakRecordEnd()
    {
      var ex, ey := 1, 4;
      Clear(); TerrifyMouth(); SlackEyes(ex, ey);
      Clear(); CloseEyes(); TerrifyMouth();
      Clear(); SlackEyes(ex, ey); TerrifyMouth();
      Clear(); CloseEyes(); TerrifyMouth();
      Clear(); SlackEyes(ex, ey); TerrifyMouth();
      Clear(); CloseEyes(); TerrifyMouth();
      Clear(); SlackEyes(ex, ey); TerrifyMouth();
      Clear(); SlackEyes(ex, ey); LaughMouth();
    }
  }
}
