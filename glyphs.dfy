/**
 * The constant 8x8 pictures the cube draws from a random number:
 * `cube/src/bagua.rs` (the eight trigrams; `src/bagua.rs` has the same
 * table) and `cube/src/dice.rs` (the six die faces).
 */
module Glyphs {
  import CubeRand
  import opened BitFrame

  /** A solid trigram line (yang) across the whole row. */
  const Solid: bv8 := 0xFF
  /** A broken trigram line (yin): the two middle pixels dark. */
  const Broken: bv8 := 0xE7

  /** `BaGua::bagua(num)`: three lines of two rows each, gaps on rows 2 and 5; blank for any other number. */
  function BaGua(num: CubeRand.U8): (rows: seq<bv8>)
    ensures |rows| == 8
  {
    match num
    case 1 => [Solid, Solid, 0, Solid, Solid, 0, Solid, Solid]
    case 2 => [Broken, Broken, 0, Broken, Broken, 0, Broken, Broken]
    case 3 => [Broken, Broken, 0, Broken, Broken, 0, Solid, Solid]
    case 4 => [Solid, Solid, 0, Broken, Broken, 0, Broken, Broken]
    case 5 => [Solid, Solid, 0, Broken, Broken, 0, Solid, Solid]
    case 6 => [Broken, Broken, 0, Solid, Solid, 0, Broken, Broken]
    case 7 => [Broken, Broken, 0, Solid, Solid, 0, Solid, Solid]
    case 8 => [Solid, Solid, 0, Solid, Solid, 0, Broken, Broken]
    case _ => Blank
  }

  /** A trigram is three doubled lines, each solid or broken, with blank rows 2 and 5. */
  ghost predicate TrigramShape(rows: seq<bv8>)
  {
    |rows| == 8 && rows[2] == 0 && rows[5] == 0 &&
    rows[0] == rows[1] && rows[3] == rows[4] && rows[6] == rows[7] &&
    rows[0] in {Solid, Broken} && rows[3] in {Solid, Broken} && rows[6] in {Solid, Broken}
  }

  lemma BaGuaShape(num: CubeRand.U8)
    ensures 1 <= num <= 8 ==> TrigramShape(BaGua(num))
    ensures !(1 <= num <= 8) ==> BaGua(num) == Blank
  {
  }

  /** The eight trigrams are pairwise different, so the picture tells the number. */
  lemma BaGuaDistinct(n: CubeRand.U8, m: CubeRand.U8)
    requires 1 <= n <= 8 && 1 <= m <= 8
    ensures BaGua(n) == BaGua(m) <==> n == m
  {
    if n != m {
      var a, b := BaGua(n), BaGua(m);
      assert a[0] != b[0] || a[3] != b[3] || a[6] != b[6];
    }
  }

  /** `BaGua::random()`: the trigram of `random(1, 9)`, never the blank picture. */
  function RandomBaGua(seed: CubeRand.U64): (rows: seq<bv8>)
    ensures TrigramShape(rows) && rows != Blank
    ensures exists n | 1 <= n <= 8 :: rows == BaGua(n)
  {
    var n := CubeRand.RandomFrom(seed, 1, 9);
    BaGuaShape(n);
    BaGua(n)
  }

  /** `Dice::dice(num)`: the face showing `num` pips; blank for any other number. */
  function Dice(num: CubeRand.U8): (rows: seq<bv8>)
    ensures |rows| == 8
  {
    match num
    case 1 => [0x00, 0x18, 0x3C, 0x7E, 0x7E, 0x3C, 0x18, 0x00]
    case 2 => [0x06, 0x0F, 0x0F, 0x06, 0x60, 0xF0, 0xF0, 0x60]
    case 3 => [0x18, 0x3C, 0x3C, 0x18, 0xC3, 0xE7, 0xE7, 0xE7]
    case 4 => [0xE7, 0xE7, 0xE7, 0x00, 0x00, 0xE7, 0xE7, 0xE7]
    case 5 => [0xE7, 0xE7, 0xDB, 0x3C, 0x3C, 0xDB, 0xE7, 0xE7]
    case 6 => [0xE7, 0xE7, 0x00, 0xE7, 0xE7, 0x00, 0xE7, 0xE7]
    case _ => Blank
  }

  lemma DiceOutside(num: CubeRand.U8)
    ensures !(1 <= num <= 6) <==> Dice(num) == Blank
  {
  }

  /** The six faces are pairwise different. */
  lemma DiceDistinct(n: CubeRand.U8, m: CubeRand.U8)
    requires 1 <= n <= 6 && 1 <= m <= 6
    ensures Dice(n) == Dice(m) <==> n == m
  {
    if n != m {
      var a, b := Dice(n), Dice(m);
      assert a[0] != b[0] || a[2] != b[2];
    }
  }

  /** The four-pip face has its two middle rows dark. */
  lemma DiceFourGap()
    ensures Dice(4)[3] == 0 && Dice(4)[4] == 0
  {
  }

  /** `Dice::random()`: the face of `random(1, 7)`, never the blank picture. */
  function RandomDice(seed: CubeRand.U64): (rows: seq<bv8>)
    ensures rows != Blank
    ensures exists n | 1 <= n <= 6 :: rows == Dice(n)
  {
    var n := CubeRand.RandomFrom(seed, 1, 7);
    DiceOutside(n);
    Dice(n)
  }
}
