/**
 * `src/ledc.rs`: the MAX7219 frame buffers of the first cube.  `buf_work`
 * is the drawing buffer, `buf` the one uploaded, and `bitmap` turns a
 * picture to follow gravity `gd` as it copies it into `buf`.
 */
module Ledc {
  import opened Common
  import opened BitFrame

  /** The term the `Up` loop ORs in for bit `k` of a source row. */
  function UpBit(b: bv8, k: nat): bv8
    requires k < 8
  {
    ((b >> k) & 1) << (7 - k)
  }

  /** The term the `Right` loop ORs into row `7 - i` for source row `j`. */
  function RightBit(b: bv8, i: nat, j: nat): bv8
    requires i < 8 && j < 8
  {
    ((b & (0x80 >> i)) << i) >> j
  }

  /** The term the `Left` loop ORs into row `7 - i` for source row `7 - j`. */
  function LeftBit(b: bv8, i: nat, j: nat): bv8
    requires i < 8 && j < 8
  {
    ((b & (1 << i)) >> i) << (7 - j)
  }

  /** The first `j` terms ORed together, as an inner loop builds a row. */
  function OrAll(ts: seq<bv8>, j: nat): bv8
    requires j <= |ts|
  {
    if j == 0 then 0 else OrAll(ts, j - 1) | ts[j - 1]
  }

  function UpTerms(b: bv8): (ts: seq<bv8>)
    ensures |ts| == 8
  {
    seq(8, k requires 0 <= k < 8 => UpBit(b, k))
  }

  function RightTerms(src: seq<bv8>, i: nat): (ts: seq<bv8>)
    requires |src| == 8 && i < 8
    ensures |ts| == 8
  {
    seq(8, j requires 0 <= j < 8 => RightBit(src[j], i, j))
  }

  function LeftTerms(src: seq<bv8>, i: nat): (ts: seq<bv8>)
    requires |src| == 8 && i < 8
    ensures |ts| == 8
  {
    seq(8, j requires 0 <= j < 8 => LeftBit(src[7 - j], i, j))
  }

  /** Adding a term that is column `k` or nothing to an accumulated row. */
  lemma AccStep(a: bv8, t: bv8, k: nat, x: nat)
    requires k < 8 && x < 8 && (t == 0 || t == Mask(k))
    ensures (a | t) & Mask(x) != 0 <==> a & Mask(x) != 0 || (t != 0 && k == x)
  {
    MaskDistinct(k, x);
    assert (a | t) & Mask(x) == (a & Mask(x)) | (t & Mask(x));
  }

  /** ORing terms of which the `k`-th is column `k` or nothing lights column `x` when term `x` is there. */
  lemma {:induction false} OrAllLit(ts: seq<bv8>, j: nat, x: nat)
    requires j <= |ts| <= 8 && x < 8
    requires forall k | 0 <= k < |ts| :: ts[k] == 0 || ts[k] == Mask(k)
    ensures OrAll(ts, j) & Mask(x) != 0 <==> x < j && ts[x] != 0
  {
    if j > 0 {
      OrAllLit(ts, j - 1, x);
      AccStep(OrAll(ts, j - 1), ts[j - 1], j - 1, x);
    }
  }

  /** One term of the `Up` loop: bit `k` of `b`, which is column `7 - k`, moved to column `k`. */
  lemma UpTerm(b: bv8, k: nat)
    requires k < 8
    ensures UpBit(b, k) == if b & Mask(7 - k) != 0 then Mask(k) else 0
  {
    match k
    case 0 =>
    case 1 =>
    case 2 =>
    case 3 =>
    case 4 =>
    case 5 =>
    case 6 =>
    case 7 =>
  }

  /** One term of the `Right` loop: column `i` of row `j`, moved to column `j`. */
  lemma RightTerm(b: bv8, i: nat, j: nat)
    requires i < 8 && j < 8
    ensures RightBit(b, i, j) == if b & Mask(i) != 0 then Mask(j) else 0
  {
    assert (b & (0x80 >> i)) << i == if b & Mask(i) != 0 then 0x80 else 0 by {
      match i
      case 0 =>
      case 1 =>
      case 2 =>
      case 3 =>
      case 4 =>
      case 5 =>
      case 6 =>
      case 7 =>
    }
    TopShift(j);
  }

  lemma TopShift(j: nat)
    requires j < 8
    ensures (0x80 as bv8) >> j == Mask(j) && (0 as bv8) >> j == 0
  {
    match j
    case 0 =>
    case 1 =>
    case 2 =>
    case 3 =>
    case 4 =>
    case 5 =>
    case 6 =>
    case 7 =>
  }

  /** One term of the `Left` loop: column `7 - i` of its row, moved to column `j`. */
  lemma LeftTerm(b: bv8, i: nat, j: nat)
    requires i < 8 && j < 8
    ensures LeftBit(b, i, j) == if b & Mask(7 - i) != 0 then Mask(j) else 0
  {
    assert (b & (1 << i)) >> i == if b & Mask(7 - i) != 0 then 1 else 0 by {
      match i
      case 0 =>
      case 1 =>
      case 2 =>
      case 3 =>
      case 4 =>
      case 5 =>
      case 6 =>
      case 7 =>
    }
    assert (0 as bv8) << (7 - j) == 0 by {
      match j
      case 0 =>
      case 1 =>
      case 2 =>
      case 3 =>
      case 4 =>
      case 5 =>
      case 6 =>
      case 7 =>
    }
  }

  /** One more pass of an inner loop ORs in the next term. */
  lemma UpStep(b: bv8, i: nat)
    requires i < 8
    ensures OrAll(UpTerms(b), i + 1) == OrAll(UpTerms(b), i) | UpBit(b, i)
  {
    assert UpTerms(b)[i] == UpBit(b, i);
  }

  lemma RightStep(src: seq<bv8>, i: nat, j: nat)
    requires |src| == 8 && i < 8 && j < 8
    ensures OrAll(RightTerms(src, i), j + 1) == OrAll(RightTerms(src, i), j) | RightBit(src[j], i, j)
  {
    assert RightTerms(src, i)[j] == RightBit(src[j], i, j);
  }

  lemma LeftStep(src: seq<bv8>, i: nat, j: nat)
    requires |src| == 8 && i < 8 && j < 8
    ensures OrAll(LeftTerms(src, i), j + 1) == OrAll(LeftTerms(src, i), j) | LeftBit(src[7 - j], i, j)
  {
    assert LeftTerms(src, i)[j] == LeftBit(src[7 - j], i, j);
  }

  /** A row of the `Up` picture: column `x` is column `7 - x` of the source row. */
  lemma UpRowLit(b: bv8, x: nat)
    requires x < 8
    ensures OrAll(UpTerms(b), 8) & Mask(x) != 0 <==> b & Mask(7 - x) != 0
  {
    var ts := UpTerms(b);
    forall k | 0 <= k < 8
      ensures ts[k] == 0 || ts[k] == Mask(k)
    {
      UpTerm(b, k);
    }
    OrAllLit(ts, 8, x);
    UpTerm(b, x);
  }

  /** A row `7 - i` of the `Right` picture: column `x` is column `i` of source row `x`. */
  lemma RightRowLit(src: seq<bv8>, i: nat, x: nat)
    requires |src| == 8 && i < 8 && x < 8
    ensures OrAll(RightTerms(src, i), 8) & Mask(x) != 0 <==> src[x] & Mask(i) != 0
  {
    var ts := RightTerms(src, i);
    forall k | 0 <= k < 8
      ensures ts[k] == 0 || ts[k] == Mask(k)
    {
      RightTerm(src[k], i, k);
    }
    OrAllLit(ts, 8, x);
    RightTerm(src[x], i, x);
  }

  /** A row `7 - i` of the `Left` picture: column `x` is column `7 - i` of source row `7 - x`. */
  lemma LeftRowLit(src: seq<bv8>, i: nat, x: nat)
    requires |src| == 8 && i < 8 && x < 8
    ensures OrAll(LeftTerms(src, i), 8) & Mask(x) != 0 <==> src[7 - x] & Mask(7 - i) != 0
  {
    var ts := LeftTerms(src, i);
    forall k | 0 <= k < 8
      ensures ts[k] == 0 || ts[k] == Mask(k)
    {
      LeftTerm(src[7 - k], i, k);
    }
    OrAllLit(ts, 8, x);
    LeftTerm(src[7 - x], i, x);
  }

  /** `bitmap` with `Up`: row `j` is row `7 - j` with its bits reversed. */
  function UpRows(src: seq<bv8>): (r: seq<bv8>)
    requires |src| == 8
    ensures |r| == 8
  {
    seq(8, j requires 0 <= j < 8 => OrAll(UpTerms(src[7 - j]), 8))
  }

  /** `bitmap` with `Right`: row `7 - i` gathers column `i`. */
  function RightRows(src: seq<bv8>): (r: seq<bv8>)
    requires |src| == 8
    ensures |r| == 8
  {
    seq(8, r requires 0 <= r < 8 => OrAll(RightTerms(src, 7 - r), 8))
  }

  /** `bitmap` with `Left`: row `7 - i` gathers column `7 - i`, bottom row first. */
  function LeftRows(src: seq<bv8>): (r: seq<bv8>)
    requires |src| == 8
    ensures |r| == 8
  {
    seq(8, r requires 0 <= r < 8 => OrAll(LeftTerms(src, 7 - r), 8))
  }

  /** What `bitmap(src)` leaves in `buf`, for gravity `gd`. */
  function Bitmapped(buf: seq<bv8>, src: seq<bv8>, gd: Direction): (r: seq<bv8>)
    requires |buf| == 8 && |src| == 8
    ensures |r| == 8
  {
    match gd
    case None => buf
    case Up => UpRows(src)
    case Right => RightRows(src)
    case Down => src
    case Left => LeftRows(src)
  }

  /** `Up` turns the picture through 180 degrees. */
  lemma UpLit(src: seq<bv8>, x: int, y: int)
    requires |src| == 8 && OnFrame(x, y)
    ensures Lit(UpRows(src), x, y) <==> Lit(src, 7 - x, 7 - y)
  {
    UpRowLit(src[7 - y], x);
  }

  /** `Right` turns it a quarter: pixel (x, y) shows source pixel (7 - y, x). */
  lemma RightLit(src: seq<bv8>, x: int, y: int)
    requires |src| == 8 && OnFrame(x, y)
    ensures Lit(RightRows(src), x, y) <==> Lit(src, 7 - y, x)
  {
    RightRowLit(src, 7 - y, x);
  }

  /** `Left` turns it the other quarter: pixel (x, y) shows source pixel (y, 7 - x). */
  lemma LeftLit(src: seq<bv8>, x: int, y: int)
    requires |src| == 8 && OnFrame(x, y)
    ensures Lit(LeftRows(src), x, y) <==> Lit(src, y, 7 - x)
  {
    LeftRowLit(src, 7 - y, x);
  }

  /** Two frames that light the same pixels are the same frame. */
  lemma FrameExtensional(a: seq<bv8>, b: seq<bv8>)
    requires |a| == 8 && |b| == 8
    requires forall x, y | OnFrame(x, y) :: Lit(a, x, y) == Lit(b, x, y)
    ensures a == b
  {
    forall y | 0 <= y < 8
      ensures a[y] == b[y]
    {
      forall x | 0 <= x < 8
        ensures (a[y] & Mask(x) != 0) == (b[y] & Mask(x) != 0)
      {
        assert Lit(a, x, y) == Lit(b, x, y);
      }
      RowExtensional(a[y], b[y]);
    }
  }

  /** Turning through 180 degrees twice gives the picture back. */
  lemma UpInvolution(src: seq<bv8>)
    requires |src| == 8
    ensures UpRows(UpRows(src)) == src
  {
    forall x, y | OnFrame(x, y)
      ensures Lit(UpRows(UpRows(src)), x, y) == Lit(src, x, y)
    {
      UpLit(UpRows(src), x, y);
      UpLit(src, 7 - x, 7 - y);
    }
    FrameExtensional(UpRows(UpRows(src)), src);
  }

  /** `Right` and `Left` undo each other. */
  lemma RightLeftInverse(src: seq<bv8>)
    requires |src| == 8
    ensures LeftRows(RightRows(src)) == src
    ensures RightRows(LeftRows(src)) == src
  {
    forall x, y | OnFrame(x, y)
      ensures Lit(LeftRows(RightRows(src)), x, y) == Lit(src, x, y)
      ensures Lit(RightRows(LeftRows(src)), x, y) == Lit(src, x, y)
    {
      LeftLit(RightRows(src), x, y);
      RightLit(src, y, 7 - x);
      RightLit(LeftRows(src), x, y);
      LeftLit(src, 7 - y, x);
    }
    FrameExtensional(LeftRows(RightRows(src)), src);
    FrameExtensional(RightRows(LeftRows(src)), src);
  }

  /** Two quarter turns to the right are the half turn of `Up`. */
  lemma RightTwiceIsUp(src: seq<bv8>)
    requires |src| == 8
    ensures RightRows(RightRows(src)) == UpRows(src)
  {
    forall x, y | OnFrame(x, y)
      ensures Lit(RightRows(RightRows(src)), x, y) == Lit(UpRows(src), x, y)
    {
      RightLit(RightRows(src), x, y);
      RightLit(src, 7 - y, x);
      UpLit(src, x, y);
    }
    FrameExtensional(RightRows(RightRows(src)), UpRows(src));
  }

  /* ---- `roll`: shift the uploaded picture by one pixel ---- */

  /** `b >> 1` and `b << 1`, one column right or left. */
  function ShiftRight(b: bv8): bv8 { b >> 1 }
  function ShiftLeft(b: bv8): bv8 { b << 1 }

  /**
   * What `roll(gd)` leaves in `buf`, as written.  `Down` copies rows 5..0
   * into rows 6..1 and blanks row 0, so row 7 keeps its old content.
   */
  function Rolled(rows: seq<bv8>, gd: Direction): (r: seq<bv8>)
    requires |rows| == 8
    ensures |r| == 8
  {
    match gd
    case None => rows
    case Up => RolledUp(rows)
    case Right => RolledRight(rows)
    case Down => RolledDownAsWritten(rows)
    case Left => RolledLeft(rows)
  }

  function RolledUp(rows: seq<bv8>): (r: seq<bv8>)
    requires |rows| == 8
    ensures |r| == 8
  {
    seq(8, i requires 0 <= i < 8 => if i < 7 then rows[i + 1] else 0)
  }

  function RolledRight(rows: seq<bv8>): (r: seq<bv8>)
    requires |rows| == 8
    ensures |r| == 8
  {
    seq(8, i requires 0 <= i < 8 => ShiftRight(rows[i]))
  }

  function RolledDownAsWritten(rows: seq<bv8>): (r: seq<bv8>)
    requires |rows| == 8
    ensures |r| == 8
  {
    seq(8, i requires 0 <= i < 8 => if i == 0 then 0 else if i < 7 then rows[i - 1] else rows[7])
  }

  function RolledLeft(rows: seq<bv8>): (r: seq<bv8>)
    requires |rows| == 8
    ensures |r| == 8
  {
    seq(8, i requires 0 <= i < 8 => ShiftLeft(rows[i]))
  }

  lemma ShiftLeftLit(b: bv8, x: nat)
    requires x < 7
    ensures ShiftLeft(b) & Mask(x) != 0 <==> b & Mask(x + 1) != 0
    ensures ShiftLeft(b) & Mask(7) == 0
  {
    match x
    case 0 =>
    case 1 =>
    case 2 =>
    case 3 =>
    case 4 =>
    case 5 =>
    case 6 =>
  }

  /**
   * `Up`, `Right` and `Left` move every pixel one step that way, the new
   * edge coming in dark; pixels pushed off the edge are lost.
   */
  lemma RolledUpLit(rows: seq<bv8>, x: int, y: int)
    requires |rows| == 8 && OnFrame(x, y)
    ensures Lit(RolledUp(rows), x, y) <==> y < 7 && Lit(rows, x, y + 1)
  {
  }

  lemma ShiftRightLit(b: bv8, x: nat)
    requires x < 7
    ensures ShiftRight(b) & Mask(x + 1) != 0 <==> b & Mask(x) != 0
    ensures ShiftRight(b) & Mask(0) == 0
  {
    match x
    case 0 =>
    case 1 =>
    case 2 =>
    case 3 =>
    case 4 =>
    case 5 =>
    case 6 =>
  }

  lemma RolledRightLit(rows: seq<bv8>, x: int, y: int)
    requires |rows| == 8 && OnFrame(x, y)
    ensures Lit(RolledRight(rows), x, y) <==> 1 <= x && Lit(rows, x - 1, y)
  {
    var r := RolledRight(rows);
    assert r[y] == ShiftRight(rows[y]);
    if x == 0 {
      ShiftRightLit(rows[y], 0);
    } else {
      var w := x - 1;
      ShiftRightLit(rows[y], w);
      assert w + 1 == x;
    }
  }

  lemma RolledLeftLit(rows: seq<bv8>, x: int, y: int)
    requires |rows| == 8 && OnFrame(x, y)
    ensures Lit(RolledLeft(rows), x, y) <==> x < 7 && Lit(rows, x + 1, y)
  {
    var r := RolledLeft(rows);
    assert r[y] == ShiftLeft(rows[y]);
    if x == 7 {
      ShiftLeftLit(rows[y], 0);
    } else {
      ShiftLeftLit(rows[y], x);
    }
  }

  /** As written, `Down` leaves the bottom row alone instead of moving row 6 into it. */
  lemma RolledDownKeepsBottomRow(rows: seq<bv8>)
    requires |rows| == 8
    ensures Rolled(rows, Down)[7] == rows[7]
    ensures forall x, y | OnFrame(x, y) && y < 7 ::
              Lit(Rolled(rows, Down), x, y) <==> 1 <= y && Lit(rows, x, y - 1)
  {
  }

  /** A line on row 6 should roll onto row 7, but is lost. */
  lemma RolledDownLosesRowSix()
    ensures var rows := [0, 0, 0, 0, 0, 0, 0xFF, 0];
            Lit(rows, 0, 6) && !Lit(Rolled(rows, Down), 0, 7)
  {
  }

  /** The intended `Down` roll: rows 6..0 into rows 7..1, row 0 blanked. */
  function RolledDown(rows: seq<bv8>): (r: seq<bv8>)
    requires |rows| == 8
    ensures |r| == 8
    ensures forall x, y | OnFrame(x, y) :: Lit(r, x, y) <==> 1 <= y && Lit(rows, x, y - 1)
  {
    seq(8, i requires 0 <= i < 8 => if i == 0 then 0 else rows[i - 1])
  }

  /** Rolling down then up gives the picture back, except the bottom row, which was pushed off. */
  lemma RollDownThenUp(rows: seq<bv8>)
    requires |rows| == 8
    ensures Rolled(RolledDown(rows), Up) == rows[7 := 0]
    ensures RolledDown(Rolled(rows, Up)) == rows[0 := 0]
  {
  }

  /* ---- `get_led_state_work` ---- */

  /**
   * `get_led_state_work(x, y, view)` as written: the masked bit is compared
   * with 1, which only the mask of column 7 can equal.
   */
  function LedStateWork(x: int, y: int, view: seq<bv8>): (r: bv8)
    requires |view| == 8 && 0 <= x < 256 && 0 <= y < 256
    ensures r == 1 <==> x == 7 && y < 8 && Lit(view, 7, y)
    ensures r == 0 || r == 1
  {
    var state: bv8 := if x <= 7 && y <= 7 then view[y] & Mask(x) else 3;
    if state == 1 then 1 else 0
  }

  /** A lit pixel in any column but the last reads as dark. */
  lemma LedStateWorkMissesLitPixel()
    ensures var view := [0xFF, 0xFF, 0xFF, 0xFF, 0xFF, 0xFF, 0xFF, 0xFF];
            Lit(view, 0, 0) && LedStateWork(0, 0, view) == 0
  {
  }

  /** The intended reading: 1 exactly for a lit pixel on the frame. */
  function LedState(x: int, y: int, view: seq<bv8>): (r: bv8)
    requires |view| == 8 && 0 <= x < 256 && 0 <= y < 256
    ensures r == 1 <==> OnFrame(x, y) && Lit(view, x, y)
    ensures r == 0 || r == 1
  {
    var state: bv8 := if x <= 7 && y <= 7 then view[y] & Mask(x) else 0;
    if state != 0 then 1 else 0
  }

  /* ---- the controller ---- */

  class LedControl {
    /** `buf_work`: the drawing buffer. */
    const bufWork: array<bv8>
    /** `buf`: the buffer uploaded to the MAX7219. */
    const buf: array<bv8>
    var gd: Direction

    ghost predicate Valid()
      reads this
    {
      bufWork.Length == 8 && buf.Length == 8 && bufWork != buf
    }

    /** `new`: both buffers dark, no gravity. */
    constructor ()
      ensures Valid() && fresh(bufWork) && fresh(buf)
      ensures bufWork[..] == Blank && buf[..] == Blank && gd == None
    {
      bufWork := new bv8[8](_ => 0);
      buf := new bv8[8](_ => 0);
      gd := None;
      new;
      assert bufWork[..] == Blank;
      assert buf[..] == Blank;
    }

    /** `clear_work`: `buf_work` dark. */
    method ClearWork()
      requires Valid()
      modifies bufWork
      ensures bufWork[..] == Blank
    {
      for i := 0 to bufWork.Length
        invariant forall k | 0 <= k < i :: bufWork[k] == 0
      {
        bufWork[i] := 0;
      }
      assert bufWork[..] == Blank;
    }

    /** `clear`: `buf` dark (the upload that follows is not modelled). */
    method Clear()
      requires Valid()
      modifies buf
      ensures buf[..] == Blank
    {
      for i := 0 to buf.Length
        invariant forall k | 0 <= k < i :: buf[k] == 0
      {
        buf[i] := 0;
      }
      assert buf[..] == Blank;
    }

    /** `set_led_work(x, y, on)`: set or clear pixel (x, y) of `buf_work`; off the frame, nothing. */
    method SetLedWork(x: int, y: int, on: bool)
      requires Valid() && 0 <= x < 256 && 0 <= y < 256
      modifies bufWork
      ensures bufWork[..] == if on then SetBit(old(bufWork[..]), x, y) else ClearBit(old(bufWork[..]), x, y)
    {
      if on {
        SetPixel(bufWork, x, y);
      } else {
        ClearPixel(bufWork, x, y);
      }
    }

    /** `set_led(x, y, on)`: the same on `buf`. */
    method SetLed(x: int, y: int, on: bool)
      requires Valid() && 0 <= x < 256 && 0 <= y < 256
      modifies buf
      ensures buf[..] == if on then SetBit(old(buf[..]), x, y) else ClearBit(old(buf[..]), x, y)
    {
      if on {
        SetPixel(buf, x, y);
      } else {
        ClearPixel(buf, x, y);
      }
    }

    /** `bitmap_work(src)`: copy the picture into `buf_work`. */
    method BitmapWork(src: seq<bv8>)
      requires Valid() && |src| == 8
      modifies bufWork
      ensures bufWork[..] == src
    {
      for i := 0 to 8
        invariant forall k | 0 <= k < i :: bufWork[k] == src[k]
      {
        bufWork[i] := src[i];
      }
    }

    /** `bitmap(src)`: copy the picture into `buf`, turned to follow `gd`. */
    method Bitmap(src: seq<bv8>)
      requires Valid() && |src| == 8
      modifies buf
      ensures buf[..] == Bitmapped(old(buf[..]), src, gd)
    {
      match gd
      case None =>
      case Up =>
        for j := 0 to 8
          invariant forall r | 0 <= r < j :: buf[r] == UpRows(src)[r]
          invariant forall r | j <= r < 8 :: buf[r] == old(buf[r])
        {
          UpRow(src, j);
        }
        assert buf[..] == UpRows(src);
      case Right =>
        for i := 0 to 8
          invariant forall r | 7 - i < r < 8 :: buf[r] == RightRows(src)[r]
          invariant forall r | 0 <= r <= 7 - i :: buf[r] == old(buf[r])
        {
          RightRow(src, i);
        }
        assert buf[..] == RightRows(src);
      case Down =>
        for i := 0 to 8
          invariant forall r | 0 <= r < i :: buf[r] == src[r]
        {
          buf[i] := src[i];
        }
        assert buf[..] == src;
      case Left =>
        for i := 0 to 8
          invariant forall r | 7 - i < r < 8 :: buf[r] == LeftRows(src)[r]
          invariant forall r | 0 <= r <= 7 - i :: buf[r] == old(buf[r])
        {
          LeftRow(src, i);
        }
        assert buf[..] == LeftRows(src);
    }

    /** One pass of the `Up` case's outer loop: row `j` from row `7 - j`. */
    method UpRow(src: seq<bv8>, j: nat)
      requires Valid() && |src| == 8 && j < 8
      modifies buf
      ensures buf[j] == UpRows(src)[j]
      ensures forall r | 0 <= r < 8 && r != j :: buf[r] == old(buf[r])
    {
      buf[j] := 0;
      for i := 0 to 8
        invariant buf[j] == OrAll(UpTerms(src[7 - j]), i)
        invariant forall r | 0 <= r < 8 && r != j :: buf[r] == old(buf[r])
      {
        UpStep(src[7 - j], i);
        buf[j] := buf[j] | UpBit(src[7 - j], i);
      }
    }

    /** One pass of the `Right` case's outer loop: row `7 - i` from column `i`. */
    method RightRow(src: seq<bv8>, i: nat)
      requires Valid() && |src| == 8 && i < 8
      modifies buf
      ensures buf[7 - i] == RightRows(src)[7 - i]
      ensures forall r | 0 <= r < 8 && r != 7 - i :: buf[r] == old(buf[r])
    {
      buf[7 - i] := 0;
      for j := 0 to 8
        invariant buf[7 - i] == OrAll(RightTerms(src, i), j)
        invariant forall r | 0 <= r < 8 && r != 7 - i :: buf[r] == old(buf[r])
      {
        RightStep(src, i, j);
        buf[7 - i] := buf[7 - i] | RightBit(src[j], i, j);
      }
    }

    /** One pass of the `Left` case's outer loop: row `7 - i` from column `7 - i`, bottom row first. */
    method LeftRow(src: seq<bv8>, i: nat)
      requires Valid() && |src| == 8 && i < 8
      modifies buf
      ensures buf[7 - i] == LeftRows(src)[7 - i]
      ensures forall r | 0 <= r < 8 && r != 7 - i :: buf[r] == old(buf[r])
    {
      buf[7 - i] := 0;
      for j := 0 to 8
        invariant buf[7 - i] == OrAll(LeftTerms(src, i), j)
        invariant forall r | 0 <= r < 8 && r != 7 - i :: buf[r] == old(buf[r])
      {
        LeftStep(src, i, j);
        buf[7 - i] := buf[7 - i] | LeftBit(src[7 - j], i, j);
      }
    }

    /** `roll(gd)`: move the uploaded picture one pixel, as written. */
    method Roll(g: Direction)
      requires Valid()
      modifies buf
      ensures buf[..] == Rolled(old(buf[..]), g)
    {
      match g
      case None =>
      case Up =>
        for i := 0 to 7
          invariant forall r | 0 <= r < i :: buf[r] == old(buf[r + 1])
          invariant forall r | i <= r < 8 :: buf[r] == old(buf[r])
        {
          buf[i] := buf[i + 1];
        }
        buf[7] := 0;
      case Right =>
        for i := 0 to 8
          invariant forall r | 0 <= r < i :: buf[r] == ShiftRight(old(buf[r]))
          invariant forall r | i <= r < 8 :: buf[r] == old(buf[r])
        {
          buf[i] := buf[i] >> 1;
        }
      case Down =>
        var i := 6;
        while i >= 1
          invariant 0 <= i <= 6
          invariant forall r | i < r < 7 :: buf[r] == old(buf[r - 1])
          invariant forall r | 0 <= r <= i || r == 7 :: buf[r] == old(buf[r])
        {
          buf[i] := buf[i - 1];
          i := i - 1;
        }
        buf[0] := 0;
      case Left =>
        for i := 0 to 8
          invariant forall r | 0 <= r < i :: buf[r] == ShiftLeft(old(buf[r]))
          invariant forall r | i <= r < 8 :: buf[r] == old(buf[r])
        {
          buf[i] := buf[i] << 1;
        }
    }
  }
}
