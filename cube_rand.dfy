/**
 * `cube_rand::CubeRng`: a 64-bit linear congruential generator with the
 * range helpers every game draws from.  `usize` values are plain naturals;
 * `x as u32` keeps the low 32 bits.
 */
module CubeRand {
  import Wrappers

  const Two32: int := 0x1_0000_0000
  const Two64: int := 0x1_0000_0000_0000_0000
  const Multiplier: int := 6364136223846793005

  type U32 = x: int | 0 <= x < 0x1_0000_0000
  type U64 = x: int | 0 <= x < 0x1_0000_0000_0000_0000
  type U8 = x: int | 0 <= x < 256

  /** One `next_u64` step: `state.wrapping_mul(6364136223846793005).wrapping_add(1)`. */
  function Lcg(s: U64): U64
  {
    (s * Multiplier + 1) % Two64
  }

  /** The state after k steps. */
  function Iterate(s: U64, k: nat): U64
  {
    if k == 0 then s else Lcg(Iterate(s, k - 1))
  }

  /** `x as u32` */
  function AsU32(x: nat): (r: U32)
    ensures x < Two32 ==> r == x
  {
    x % Two32
  }

  /** A `RangeBounds` end point. */
  datatype Bound = Unbounded | Included(n: nat) | Excluded(n: nat)

  /** What `random_range` does: return a value, or panic with "empty range" or a zero divisor. */
  datatype Draw = Value(v: nat) | EmptyRange | DivideByZero

  /** `low`, or `None` where `checked_add` fails. */
  function LowOf(b: Bound): (r: Wrappers.Option<U32>)
    ensures b.Unbounded? ==> r == Wrappers.Some(0)
    ensures b.Included? ==> r == Wrappers.Some(AsU32(b.n))
    ensures b.Excluded? ==> (r.None? <==> AsU32(b.n) == Two32 - 1)
    ensures b.Excluded? && r.Some? ==> r.value == AsU32(b.n) + 1
  {
    match b
    case Unbounded => Wrappers.Some(0)
    case Included(x) => Wrappers.Some(AsU32(x))
    case Excluded(x) => if AsU32(x) == Two32 - 1 then Wrappers.None else Wrappers.Some(AsU32(x) + 1)
  }

  /** `high`, or `None` where `checked_sub` fails. */
  function HighOf(b: Bound): (r: Wrappers.Option<U32>)
    ensures b.Unbounded? ==> r == Wrappers.Some(Two32 - 1)
    ensures b.Included? ==> r == Wrappers.Some(AsU32(b.n))
    ensures b.Excluded? ==> (r.None? <==> AsU32(b.n) == 0)
    ensures b.Excluded? && r.Some? ==> r.value == AsU32(b.n) - 1
  {
    match b
    case Unbounded => Wrappers.Some(Two32 - 1)
    case Included(x) => Wrappers.Some(AsU32(x))
    case Excluded(x) => if AsU32(x) == 0 then Wrappers.None else Wrappers.Some(AsU32(x) - 1)
  }

  /**
   * `random_range` once the generator has produced the 32-bit draw `u`:
   * `low + u % (high - low)`, after the panics for a failed bound
   * conversion, for `low > high`, and for the zero divisor when `low == high`.
   */
  function RangeFromDraw(start: Bound, end: Bound, u: U32): (r: Draw)
    ensures r.Value? ==> LowOf(start).Some? && HighOf(end).Some? &&
                         LowOf(start).value <= r.v < HighOf(end).value
  {
    if LowOf(start).None? || HighOf(end).None? then EmptyRange
    else
      var low, high := LowOf(start).value, HighOf(end).value;
      if low > high then EmptyRange
      else if low == high then DivideByZero
      else Value(low + u % (high - low))
  }

  /** Whether `random_range` gets as far as calling `next_u32`. */
  predicate RangeDraws(start: Bound, end: Bound)
  {
    LowOf(start).Some? && HighOf(end).Some? && LowOf(start).value <= HighOf(end).value
  }

  /** `random(min, max)` once the draw `u` is known. */
  function RandomFromDraw(min: U32, max: U32, u: U32): (r: U32)
    ensures min >= max ==> r == min
    ensures min < max ==> min <= r < max
  {
    if min >= max then min else min + u % (max - min)
  }

  /** `CubeRng(seed).random(min, max)`, the form every caller uses. */
  function RandomFrom(seed: U64, min: U32, max: U32): (r: U32)
    ensures min >= max ==> r == min
    ensures min < max ==> min <= r < max
  {
    RandomFromDraw(min, max, Lcg(seed) % Two32)
  }

  /** `CubeRng(seed).random_range(start..end)`, the form every caller uses. */
  function RangeFrom(seed: U64, start: Bound, end: Bound): (r: Draw)
    ensures r.Value? ==> LowOf(start).Some? && HighOf(end).Some? &&
                         LowOf(start).value <= r.v < HighOf(end).value
  {
    RangeFromDraw(start, end, Lcg(seed) % Two32)
  }

  /** An inclusive range `a..=b` gives a value in `[a, b)`: `b` itself never comes out. */
  lemma InclusiveRange(a: U32, b: U32, u: U32)
    requires a < b
    ensures RangeFromDraw(Included(a), Included(b), u) == Value(a + u % (b - a))
    ensures var r := RangeFromDraw(Included(a), Included(b), u); a <= r.v < b && r.v != b
  {
  }

  /** An exclusive range `a..b` sets `high = b - 1`, so it gives a value in `[a, b - 1)`. */
  lemma ExclusiveRange(a: U32, b: U32, u: U32)
    requires a + 1 < b
    ensures var r := RangeFromDraw(Included(a), Excluded(b), u); r.Value? && a <= r.v < b - 1
  {
  }

  /** The panics: `a..=a` and `a..a+1` divide by zero, a reversed range is empty. */
  lemma RangePanics(a: U32, b: U32, u: U32)
    ensures RangeFromDraw(Included(a), Included(a), u) == DivideByZero
    ensures a + 1 < Two32 ==> RangeFromDraw(Included(a), Excluded(a + 1), u) == DivideByZero
    ensures b < a ==> RangeFromDraw(Included(a), Included(b), u) == EmptyRange
    ensures RangeFromDraw(Included(a), Excluded(0), u) == EmptyRange
  {
  }

  /** No draw whatsoever makes `a..=b` return `b`. */
  lemma InclusiveEndUnreachable(a: U32, b: U32)
    ensures forall u: U32 :: RangeFromDraw(Included(a), Included(b), u) != Value(b)
  {
  }

  /**
   * The evidently intended `random_range`: the size of the inclusive span
   * `[low, high]` is `high - low + 1`, so an empty range is the only panic.
   */
  function FixedRangeFromDraw(start: Bound, end: Bound, u: U32): (r: Draw)
    ensures r.Value? <==> RangeDraws(start, end)
    ensures r.Value? ==> LowOf(start).value <= r.v <= HighOf(end).value
    ensures !r.DivideByZero?
  {
    if RangeDraws(start, end) then
      var low := LowOf(start).value;
      Value(low + u % (HighOf(end).value - low + 1))
    else EmptyRange
  }

  /** With the fix, every value of `a..=b` (and of `a..b`) can be drawn. */
  lemma FixedRangeCovers(a: U32, b: U32, v: U32)
    requires a <= v <= b
    ensures FixedRangeFromDraw(Included(a), Included(b), v - a) == Value(v)
    ensures v < b ==> FixedRangeFromDraw(Included(a), Excluded(b), v - a) == Value(v)
  {
    ModSmall(v - a, b - a + 1);
    if v < b {
      ModSmall(v - a, b - a);
    }
  }

  lemma ModSmall(x: int, m: int)
    requires 0 <= x < m
    ensures x % m == x
  {
  }

  /** The eight bytes of a `u64`, least significant first. */
  function LeBytes(v: U64): (bs: seq<U8>)
    ensures |bs| == 8
  {
    LeBytesOf(v, 8)
  }

  function LeBytesOf(v: nat, n: nat): (bs: seq<U8>)
    ensures |bs| == n
  {
    if n == 0 then [] else [v % 256] + LeBytesOf(v / 256, n - 1)
  }

  /** Reading the bytes back, least significant first. */
  function FromLe(bs: seq<U8>): nat
  {
    if bs == [] then 0 else bs[0] + 256 * FromLe(bs[1..])
  }

  function Pow256(n: nat): nat
  {
    if n == 0 then 1 else 256 * Pow256(n - 1)
  }

  lemma {:induction false} LeBytesRoundTrip(v: nat, n: nat)
    requires v < Pow256(n)
    ensures FromLe(LeBytesOf(v, n)) == v
  {
    if n > 0 {
      var bs := LeBytesOf(v, n);
      assert bs[1..] == LeBytesOf(v / 256, n - 1);
      assert v / 256 < Pow256(n - 1);
      LeBytesRoundTrip(v / 256, n - 1);
      assert bs[0] == v % 256;
      assert v == v % 256 + 256 * (v / 256);
    }
  }

  /** The bytes `fill_bytes` writes decode back to the state they came from. */
  lemma LeBytesDecode(v: U64)
    ensures FromLe(LeBytes(v)) == v
  {
    assert Pow256(8) == Two64;
    LeBytesRoundTrip(v, 8);
  }

  class CubeRng {
    var state: U64

    /** `CubeRng(seed)` */
    constructor (seed: U64)
      ensures state == seed
    {
      state := seed;
    }

    method NextU64() returns (r: U64)
      modifies this
      ensures state == Lcg(old(state)) && r == state
    {
      state := Lcg(state);
      r := state;
    }

    /** `next_u64() as u32` */
    method NextU32() returns (r: U32)
      modifies this
      ensures state == Lcg(old(state)) && r == state % Two32
    {
      var v := NextU64();
      r := v % Two32;
    }

    /** `random(min, max)`: `min` without a draw when `min >= max`, else a value in `[min, max)`. */
    method Random(min: U32, max: U32) returns (r: U32)
      modifies this
      ensures min >= max ==> r == min && state == old(state)
      ensures min < max ==> state == Lcg(old(state)) && r == RandomFromDraw(min, max, state % Two32)
      ensures min < max ==> min <= r < max
    {
      if min >= max {
        return min;
      }
      var rangeSize := max - min;
      var u := NextU32();
      r := min + u % rangeSize;
    }

    /**
     * `random_range(start..end)`: the state advances exactly when the
     * bounds convert and `low <= high` (the zero divisor is met after the draw).
     */
    method RandomRange(start: Bound, end: Bound) returns (r: Draw)
      modifies this
      ensures state == if RangeDraws(start, end) then Lcg(old(state)) else old(state)
      ensures r == RangeFromDraw(start, end, state % Two32)
    {
      var lowOpt := LowOf(start);
      var highOpt := HighOf(end);
      if lowOpt.None? || highOpt.None? {
        return EmptyRange;
      }
      var low, high := lowOpt.value, highOpt.value;
      if low > high {
        return EmptyRange;
      }
      var rangeSize := high - low;
      var u := NextU32();
      if rangeSize == 0 {
        return DivideByZero;
      }
      r := Value(low + u % rangeSize);
    }

    /**
     * `fill_bytes`: each chunk of eight bytes (the last one possibly
     * shorter) receives the little-endian bytes of one fresh `next_u64`.
     */
    method FillBytes(dest: array<U8>)
      modifies this, dest
      ensures state == Iterate(old(state), (dest.Length + 7) / 8)
      ensures forall i | 0 <= i < dest.Length :: dest[i] == ChunkByte(old(state), i)
    {
      ghost var s0 := state;
      var chunk, base := 0, 0;
      while base < dest.Length
        invariant base == 8 * chunk && base <= dest.Length + 7
        invariant state == Iterate(s0, chunk)
        invariant forall i | 0 <= i < dest.Length && i < base :: dest[i] == ChunkByte(s0, i)
        decreases dest.Length - base
      {
        var value := NextU64();
        ghost var v0 := value;
        var j := 0;
        while j < 8 && base + j < dest.Length
          modifies dest
          invariant 0 <= j <= 8 && base + j <= dest.Length
          invariant value == Shifted(v0, j)
          invariant forall i | 0 <= i < dest.Length && i < base :: dest[i] == ChunkByte(s0, i)
          invariant forall k | 0 <= k < j :: dest[base + k] == LeBytes(v0)[k]
        {
          ShiftedByte(v0, 8, j);
          dest[base + j] := value % 256;
          value := value / 256;
          j := j + 1;
        }
        forall i | base <= i < base + j
          ensures dest[i] == ChunkByte(s0, i)
        {
          ChunkIndex(i, chunk);
          assert dest[base + (i - base)] == LeBytes(v0)[i - base];
        }
        chunk, base := chunk + 1, base + 8;
      }
    }

    /** `try_fill_bytes`: the same bytes as `fill_bytes`, and always `Ok`. */
    method TryFillBytes(dest: array<U8>) returns (ok: bool)
      modifies this, dest
      ensures ok
      ensures state == Iterate(old(state), (dest.Length + 7) / 8)
      ensures forall i | 0 <= i < dest.Length :: dest[i] == ChunkByte(old(state), i)
    {
      FillBytes(dest);
      ok := true;
    }
  }

  /** Byte i of a buffer filled from state s: byte i % 8 of the (i / 8 + 1)-th `next_u64`. */
  function ChunkByte(s: U64, i: nat): U8
  {
    LeBytes(Iterate(s, i / 8 + 1))[i % 8]
  }

  lemma ChunkIndex(i: int, c: int)
    requires 0 <= 8 * c <= i < 8 * c + 8
    ensures i / 8 == c && i % 8 == i - 8 * c
  {
  }

  /** `value >>= 8`, applied j times. */
  function Shifted(v: nat, j: nat): nat
  {
    if j == 0 then v else Shifted(v, j - 1) / 256
  }

  lemma {:induction false} ShiftedTail(v: nat, j: nat)
    requires j > 0
    ensures Shifted(v, j) == Shifted(v / 256, j - 1)
  {
    if j > 1 {
      ShiftedTail(v, j - 1);
    }
  }

  /** The j-th little-endian byte is what is left after j shifts by eight bits. */
  lemma {:induction false} ShiftedByte(v: nat, n: nat, j: nat)
    requires j < n
    ensures LeBytesOf(v, n)[j] == Shifted(v, j) % 256
  {
    if j > 0 {
      ShiftedTail(v, j);
      ShiftedByte(v / 256, n - 1, j - 1);
    }
  }
}
