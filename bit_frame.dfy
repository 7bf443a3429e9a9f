/**
 * Single-pixel edits of an 8x8 one-bit frame (eight row bytes, pixel (x, y)
 * at bit 7-x of row y), as the face and LED buffers make them.  A position
 * outside `[0, 8) x [0, 8)` leaves the frame as it is.
 */
module BitFrame {
  import opened Common

  /** `[0u8; 8]`. */
  const Blank: seq<bv8> := [0, 0, 0, 0, 0, 0, 0, 0]

  lemma BlankUnlit(x: int, y: int)
    requires 0 <= x < 8 && 0 <= y < 8
    ensures !Lit(Blank, x, y)
  {
  }

  predicate OnFrame(x: int, y: int)
  {
    0 <= x < 8 && 0 <= y < 8
  }

  /** `data[y] |= 1 << (7 - x)` behind the range check. */
  function SetBit(rows: seq<bv8>, x: int, y: int): (r: seq<bv8>)
    requires |rows| == 8
    ensures |r| == 8
  {
    if OnFrame(x, y) then rows[y := rows[y] | Mask(x)] else rows
  }

  /** `data[y] &= !(1 << (7 - x))` behind the range check. */
  function ClearBit(rows: seq<bv8>, x: int, y: int): (r: seq<bv8>)
    requires |rows| == 8
    ensures |r| == 8
  {
    if OnFrame(x, y) then rows[y := rows[y] & !Mask(x)] else rows
  }

  /** `data[y] ^= 1 << (7 - x)` behind the range check. */
  function ToggleBit(rows: seq<bv8>, x: int, y: int): (r: seq<bv8>)
    requires |rows| == 8
    ensures |r| == 8
  {
    if OnFrame(x, y) then rows[y := rows[y] ^ Mask(x)] else rows
  }

  /** Setting lights pixel (x, y) and changes no other pixel. */
  lemma SetBitLit(rows: seq<bv8>, x: int, y: int, x': int, y': int)
    requires |rows| == 8 && OnFrame(x', y')
    ensures Lit(SetBit(rows, x, y), x', y') <==> Lit(rows, x', y') || (x' == x && y' == y)
  {
    if OnFrame(x, y) && y' == y {
      MaskDistinct(x, x');
      assert (rows[y] | Mask(x)) & Mask(x') == (rows[y] & Mask(x')) | (Mask(x) & Mask(x'));
    }
  }

  /** Setting is idempotent. */
  lemma SetBitIdempotent(rows: seq<bv8>, x: int, y: int)
    requires |rows| == 8
    ensures SetBit(SetBit(rows, x, y), x, y) == SetBit(rows, x, y)
  {
  }

  /** Clearing darkens pixel (x, y) and changes no other pixel. */
  lemma ClearBitLit(rows: seq<bv8>, x: int, y: int, x': int, y': int)
    requires |rows| == 8 && OnFrame(x', y')
    ensures Lit(ClearBit(rows, x, y), x', y') <==> Lit(rows, x', y') && !(x' == x && y' == y)
  {
    if OnFrame(x, y) && y' == y {
      MaskDistinct(x, x');
      assert (rows[y] & !Mask(x)) & Mask(x') == (rows[y] & Mask(x')) & !(Mask(x) & Mask(x'));
    }
  }

  /** Toggling flips pixel (x, y) and changes no other pixel. */
  lemma ToggleBitLit(rows: seq<bv8>, x: int, y: int, x': int, y': int)
    requires |rows| == 8 && OnFrame(x', y')
    ensures Lit(ToggleBit(rows, x, y), x', y') <==> (Lit(rows, x', y') != (x' == x && y' == y))
  {
    if OnFrame(x, y) && y' == y {
      MaskDistinct(x, x');
      assert (rows[y] ^ Mask(x)) & Mask(x') == (rows[y] & Mask(x')) ^ (Mask(x) & Mask(x'));
    }
  }

  /** Toggling twice restores the frame. */
  lemma ToggleBitTwice(rows: seq<bv8>, x: int, y: int)
    requires |rows| == 8
    ensures ToggleBit(ToggleBit(rows, x, y), x, y) == rows
  {
    if OnFrame(x, y) {
      assert rows[y] ^ Mask(x) ^ Mask(x) == rows[y];
    }
  }

  /** A toggle is a clear exactly when the pixel was lit. */
  lemma ToggleIsClearWhenLit(rows: seq<bv8>, x: int, y: int)
    requires |rows| == 8 && OnFrame(x, y)
    ensures ToggleBit(rows, x, y) == ClearBit(rows, x, y) <==> Lit(rows, x, y)
  {
    var b, m := rows[y], Mask(x);
    UpdateSame(rows, y, b ^ m, b & !m);
    ToggleClearByte(b, x);
  }

  lemma UpdateSame(s: seq<bv8>, i: int, p: bv8, q: bv8)
    requires 0 <= i < |s|
    ensures s[i := p] == s[i := q] <==> p == q
  {
    if s[i := p] == s[i := q] {
      assert s[i := p][i] == p;
    }
  }

  lemma ToggleClearByte(b: bv8, x: int)
    requires 0 <= x < 8
    ensures b ^ Mask(x) == b & !Mask(x) <==> b & Mask(x) != 0
  {
    match x
    case 0 =>
    case 1 =>
    case 2 =>
    case 3 =>
    case 4 =>
    case 5 =>
    case 6 =>
    case 7 =>
  }

  /** The pixels of `pts` set one after the other, left to right. */
  function SetAll(rows: seq<bv8>, pts: seq<Point>): (r: seq<bv8>)
    requires |rows| == 8
    ensures |r| == 8
    decreases |pts|
  {
    if pts == [] then rows else SetAll(SetBit(rows, pts[0].x, pts[0].y), pts[1..])
  }

  /** After setting `pts`, a pixel is lit exactly when it was already or is one of `pts`. */
  lemma {:induction false} SetAllLit(rows: seq<bv8>, pts: seq<Point>, x: int, y: int)
    requires |rows| == 8 && OnFrame(x, y)
    ensures Lit(SetAll(rows, pts), x, y) <==> Lit(rows, x, y) || Point(x, y) in pts
    decreases |pts|
  {
    if pts != [] {
      SetBitLit(rows, pts[0].x, pts[0].y, x, y);
      SetAllLit(SetBit(rows, pts[0].x, pts[0].y), pts[1..], x, y);
      assert pts == [pts[0]] + pts[1..];
    }
  }

  /** Setting `a` and then `b` is setting `a + b`. */
  lemma {:induction false} SetAllAppend(rows: seq<bv8>, a: seq<Point>, b: seq<Point>)
    requires |rows| == 8
    ensures SetAll(SetAll(rows, a), b) == SetAll(rows, a + b)
    decreases |a|
  {
    if a != [] {
      SetAllAppend(SetBit(rows, a[0].x, a[0].y), a[1..], b);
      assert (a + b)[0] == a[0] && (a + b)[1..] == a[1..] + b;
    } else {
      assert a + b == b;
    }
  }

  /** Drawing `pts` on a blank frame lights exactly `pts`. */
  lemma SetAllOnBlank(pts: seq<Point>, x: int, y: int)
    requires OnFrame(x, y)
    ensures Lit(SetAll(Blank, pts), x, y) <==> Point(x, y) in pts
  {
    SetAllLit(Blank, pts, x, y);
  }

  /** `rows[y] |= 1 << (7 - x)` in place, behind the `x > 7 || y > 7` return. */
  method SetPixel(a: array<bv8>, x: int, y: int)
    requires a.Length == 8 && 0 <= x < 256 && 0 <= y < 256
    modifies a
    ensures a[..] == SetBit(old(a[..]), x, y)
  {
    if x > 7 || y > 7 {
      return;
    }
    a[y] := a[y] | Mask(x);
  }

  /** `rows[y] &= !(1 << (7 - x))` in place, behind the same return. */
  method ClearPixel(a: array<bv8>, x: int, y: int)
    requires a.Length == 8 && 0 <= x < 256 && 0 <= y < 256
    modifies a
    ensures a[..] == ClearBit(old(a[..]), x, y)
  {
    if x > 7 || y > 7 {
      return;
    }
    a[y] := a[y] & !Mask(x);
  }
}
