/**
 * The WS2812 / SK6812W wire format of `ws2812-spi-rs`: each colour byte is
 * sent as four SPI bytes, two data bits per SPI byte, most significant pair
 * first.  `src/lib.rs` of that crate writes the SPI bytes straight to the
 * bus; `src/prerendered.rs` first renders them into a caller's buffer.
 */
module SpiEncoding {
  import opened Common
  import Wrappers

  /** `patterns`: the SPI byte for each two-bit value. */
  function Pattern(bits: bv8): (p: bv8)
    requires bits < 4
  {
    if bits == 0 then 0x88 else if bits == 1 then 0x8E else if bits == 2 then 0xE8 else 0xEE
  }

  /** The four patterns differ, so every SPI byte tells its two bits. */
  lemma PatternsDistinct(a: bv8, b: bv8)
    requires a < 4 && b < 4
    ensures Pattern(a) == Pattern(b) <==> a == b
  {
  }

  /** The two bits a pattern stands for; anything else is not a pattern. */
  function Unpattern(p: bv8): (r: Wrappers.Option<bv8>)
    ensures r.Some? ==> r.value < 4 && Pattern(r.value) == p
    ensures r.None? ==> forall b: bv8 | b < 4 :: Pattern(b) != p
  {
    if p == 0x88 then Wrappers.Some(0) else if p == 0x8E then Wrappers.Some(1)
    else if p == 0xE8 then Wrappers.Some(2) else if p == 0xEE then Wrappers.Some(3)
    else Wrappers.None
  }

  /** The pair of bits `write_byte` sends `k`-th: after `k` shifts by two, the top two bits. */
  function Pair(b: bv8, k: nat): (bits: bv8)
    requires k < 4
    ensures bits < 4
  {
    (Shifted(b, k) & 0xC0) >> 6
  }

  /** `data` after `k` of `write_byte`'s shifts by two. */
  function Shifted(b: bv8, k: nat): (v: bv8)
    requires k <= 4
  {
    match k
    case 0 => b
    case 1 => b << 2
    case 2 => b << 4
    case 3 => b << 6
    case 4 => 0
  }

  lemma ShiftStep(b: bv8, k: nat)
    requires k < 4
    ensures Shifted(b, k + 1) == Shifted(b, k) << 2
  {
    match k
    case 0 =>
    case 1 => assert (b << 2) << 2 == b << 4;
    case 2 => assert (b << 4) << 2 == b << 6;
    case 3 => assert (b << 6) << 2 == 0;
  }

  /** `write_byte(b)`: its four SPI bytes. */
  function Encode(b: bv8): (s: seq<bv8>)
    ensures |s| == 4
  {
    [Pattern(Pair(b, 0)), Pattern(Pair(b, 1)), Pattern(Pair(b, 2)), Pattern(Pair(b, 3))]
  }

  lemma EncodeAt(b: bv8, k: nat)
    requires k < 4
    ensures Encode(b)[k] == Pattern(Pair(b, k))
  {
  }

  /** One round of `write_byte`'s loop: the pattern it sends and the `data` it leaves. */
  lemma EncodeStep(b: bv8, k: nat)
    requires k < 4
    ensures (Shifted(b, k) & 0xC0) >> 6 == Pair(b, k)
    ensures Shifted(b, k + 1) == Shifted(b, k) << 2
    ensures Encode(b)[..k + 1] == Encode(b)[..k] + [Pattern(Pair(b, k))]
  {
    ShiftStep(b, k);
    EncodeAt(b, k);
  }

  /** Reading the four SPI bytes back. */
  function Decode(s: seq<bv8>): (r: Wrappers.Option<bv8>)
    requires |s| == 4
  {
    var a, b, c, d := Unpattern(s[0]), Unpattern(s[1]), Unpattern(s[2]), Unpattern(s[3]);
    if a.Some? && b.Some? && c.Some? && d.Some? then
      Wrappers.Some((a.value << 6) | (b.value << 4) | (c.value << 2) | d.value)
    else Wrappers.None
  }

  lemma UnpatternPattern(bits: bv8)
    requires bits < 4
    ensures Unpattern(Pattern(bits)) == Wrappers.Some(bits)
  {
  }

  /** Decoding undoes the encoding: no colour information is lost on the wire. */
  lemma DecodeEncode(b: bv8)
    ensures Decode(Encode(b)) == Wrappers.Some(b)
  {
    UnpatternPattern(Pair(b, 0));
    UnpatternPattern(Pair(b, 1));
    UnpatternPattern(Pair(b, 2));
    UnpatternPattern(Pair(b, 3));
    assert (Pair(b, 0) << 6) | (Pair(b, 1) << 4) | (Pair(b, 2) << 2) | Pair(b, 3) == b;
  }

  /** Different colour bytes are sent differently. */
  lemma EncodeInjective(a: bv8, b: bv8)
    ensures Encode(a) == Encode(b) <==> a == b
  {
    DecodeEncode(a);
    DecodeEncode(b);
  }

  /** The encodings of `bytes`, one after the other. */
  function EncodeAll(bytes: seq<bv8>): (s: seq<bv8>)
    ensures |s| == 4 * |bytes|
  {
    if bytes == [] then [] else EncodeAll(bytes[..|bytes| - 1]) + Encode(bytes[|bytes| - 1])
  }

  lemma EncodeAllAppend(a: seq<bv8>, b: seq<bv8>)
    ensures EncodeAll(a + b) == EncodeAll(a) + EncodeAll(b)
    decreases |b|
  {
    if b != [] {
      EncodeAllAppend(a, b[..|b| - 1]);
      assert (a + b)[..|a + b| - 1] == a + b[..|b| - 1];
    } else {
      assert a + b == a;
    }
  }

  /** Reading a whole stream of SPI bytes back, four at a time. */
  function DecodeAll(s: seq<bv8>): (r: Wrappers.Option<seq<bv8>>)
    requires |s| % 4 == 0
    ensures r.Some? ==> 4 * |r.value| == |s|
  {
    if s == [] then Wrappers.Some([])
    else
      var front := DecodeAll(s[..|s| - 4]);
      var last := Decode(s[|s| - 4..]);
      if front.Some? && last.Some? then Wrappers.Some(front.value + [last.value]) else Wrappers.None
  }

  /** The whole colour stream survives the trip over the wire. */
  lemma {:induction false} DecodeAllEncodeAll(bytes: seq<bv8>)
    ensures DecodeAll(EncodeAll(bytes)) == Wrappers.Some(bytes)
    decreases |bytes|
  {
    if bytes != [] {
      var init := bytes[..|bytes| - 1];
      var s := EncodeAll(bytes);
      assert s == EncodeAll(init) + Encode(bytes[|bytes| - 1]);
      assert s[..|s| - 4] == EncodeAll(init);
      assert s[|s| - 4..] == Encode(bytes[|bytes| - 1]);
      DecodeAllEncodeAll(init);
      DecodeEncode(bytes[|bytes| - 1]);
      assert init + [bytes[|bytes| - 1]] == bytes;
    }
  }

  lemma EncodeAllOne(a: bv8)
    ensures EncodeAll([a]) == Encode(a)
  {
    assert [a][..0] == [];
  }

  lemma EncodeAllThree(a: bv8, b: bv8, c: bv8)
    ensures EncodeAll([a, b, c]) == Encode(a) + Encode(b) + Encode(c)
  {
    EncodeAllOne(a);
    EncodeAllOne(b);
    EncodeAllOne(c);
    EncodeAllAppend([a], [b]);
    EncodeAllAppend([a, b], [c]);
    assert [a] + [b] == [a, b];
    assert [a, b] + [c] == [a, b, c];
  }

  lemma EncodeAllFour(a: bv8, b: bv8, c: bv8, d: bv8)
    ensures EncodeAll([a, b, c, d]) == Encode(a) + Encode(b) + Encode(c) + Encode(d)
  {
    EncodeAllThree(a, b, c);
    EncodeAllOne(d);
    EncodeAllAppend([a, b, c], [d]);
    assert [a, b, c] + [d] == [a, b, c, d];
  }

  /** The first `4 * i` SPI bytes encode the first `i` colour bytes. */
  lemma EncodeAllPrefix(bytes: seq<bv8>, i: nat)
    requires i <= |bytes|
    ensures EncodeAll(bytes)[..4 * i] == EncodeAll(bytes[..i])
  {
    var front, back := bytes[..i], bytes[i..];
    assert front + back == bytes;
    EncodeAllAppend(front, back);
    var e, f := EncodeAll(front), EncodeAll(back);
    assert |e| == 4 * i;
    assert (e + f)[..|e|] == e;
  }

  lemma ByteStep(bytes: seq<bv8>, i: nat)
    requires i < |bytes|
    ensures EncodeAll(bytes[..i + 1]) == EncodeAll(bytes[..i]) + Encode(bytes[i])
  {
    EncodeAllOne(bytes[i]);
    EncodeAllAppend(bytes[..i], [bytes[i]]);
    assert bytes[..i + 1] == bytes[..i] + [bytes[i]];
  }

  /** Writing `f` just after `e` in a buffer that already holds `e` at `start`. */
  lemma SpliceStep(orig: seq<bv8>, start: nat, e: seq<bv8>, f: seq<bv8>)
    requires start + |e| + |f| <= |orig|
    ensures var d := orig[..start] + e + orig[start + |e|..];
            d[..start + |e|] + f + d[start + |e| + |f|..] == orig[..start] + (e + f) + orig[start + |e| + |f|..]
  {
  }

  /** The buffer after one more colour byte is rendered behind the first `i`. */
  lemma BufferStep(orig: seq<bv8>, start: nat, bytes: seq<bv8>, i: nat)
    requires i < |bytes| && start + 4 * (i + 1) <= |orig|
    ensures var d := orig[..start] + EncodeAll(bytes[..i]) + orig[start + 4 * i..];
            d[..start + 4 * i] + Encode(bytes[i]) + d[start + 4 * i + 4..] ==
            orig[..start] + EncodeAll(bytes[..i + 1]) + orig[start + 4 * (i + 1)..]
  {
    ByteStep(bytes, i);
    SpliceStep(orig, start, EncodeAll(bytes[..i]), Encode(bytes[i]));
  }

  /** A WS2812 takes its channels in the order green, red, blue. */
  function Grb(c: Rgb): (s: seq<bv8>)
  {
    [c.g, c.r, c.b]
  }

  /** `RGBW<u8, u8>`: a colour plus a white channel. */
  datatype Rgbw = Rgbw(r: bv8, g: bv8, b: bv8, w: bv8)

  /** An SK6812W takes green, red, blue, then white. */
  function Grbw(c: Rgbw): (s: seq<bv8>)
  {
    [c.g, c.r, c.b, c.w]
  }

  /** The channel bytes of a strip of WS2812 LEDs, in the order they are sent. */
  function RgbBytes(items: seq<Rgb>): (s: seq<bv8>)
    ensures |s| == 3 * |items|
  {
    if items == [] then [] else RgbBytes(items[..|items| - 1]) + Grb(items[|items| - 1])
  }

  /** The channel bytes of a strip of SK6812W LEDs. */
  function RgbwBytes(items: seq<Rgbw>): (s: seq<bv8>)
    ensures |s| == 4 * |items|
  {
    if items == [] then [] else RgbwBytes(items[..|items| - 1]) + Grbw(items[|items| - 1])
  }

  /** Twelve SPI bytes per WS2812 LED and sixteen per SK6812W LED. */
  lemma WireLengths(items: seq<Rgb>, witems: seq<Rgbw>)
    ensures |EncodeAll(RgbBytes(items))| == 12 * |items|
    ensures |EncodeAll(RgbwBytes(witems))| == 16 * |witems|
  {
  }

  /** The wire bytes of one more WS2812 LED: its green, red and blue encodings. */
  lemma RgbStep(items: seq<Rgb>, i: nat)
    requires i < |items|
    ensures EncodeAll(RgbBytes(items[..i + 1])) ==
            EncodeAll(RgbBytes(items[..i])) + Encode(items[i].g) + Encode(items[i].r) + Encode(items[i].b)
  {
    var c := items[i];
    assert items[..i + 1][..i] == items[..i];
    assert RgbBytes(items[..i + 1]) == RgbBytes(items[..i]) + [c.g, c.r, c.b];
    EncodeAllThree(c.g, c.r, c.b);
    EncodeAllAppend(RgbBytes(items[..i]), [c.g, c.r, c.b]);
    CatAssoc(EncodeAll(RgbBytes(items[..i])), Encode(c.g), Encode(c.r), Encode(c.b));
  }

  /** The wire bytes of one more SK6812W LED. */
  lemma RgbwStep(items: seq<Rgbw>, i: nat)
    requires i < |items|
    ensures EncodeAll(RgbwBytes(items[..i + 1])) ==
            EncodeAll(RgbwBytes(items[..i])) + Encode(items[i].g) + Encode(items[i].r) +
            Encode(items[i].b) + Encode(items[i].w)
  {
    var c := items[i];
    assert items[..i + 1][..i] == items[..i];
    assert RgbwBytes(items[..i + 1]) == RgbwBytes(items[..i]) + [c.g, c.r, c.b, c.w];
    EncodeAllFour(c.g, c.r, c.b, c.w);
    EncodeAllAppend(RgbwBytes(items[..i]), [c.g, c.r, c.b, c.w]);
    CatAssoc5(EncodeAll(RgbwBytes(items[..i])), Encode(c.g), Encode(c.r), Encode(c.b), Encode(c.w));
  }

  lemma CatAssoc5(a: seq<bv8>, b: seq<bv8>, c: seq<bv8>, d: seq<bv8>, e: seq<bv8>)
    ensures a + (b + c + d + e) == a + b + c + d + e
  {
  }

  lemma CatAssoc(a: seq<bv8>, b: seq<bv8>, c: seq<bv8>, d: seq<bv8>)
    ensures a + (b + c + d) == a + b + c + d
    ensures a + (b + c) + d == a + b + c + d
  {
  }

  /** The log after one more WS2812 LED's three channel bytes. */
  lemma RgbSent(head: seq<bv8>, before: seq<bv8>, items: seq<Rgb>, i: nat)
    requires i < |items| && before == head + EncodeAll(RgbBytes(items[..i]))
    ensures before + Encode(items[i].g) + Encode(items[i].r) + Encode(items[i].b) ==
            head + EncodeAll(RgbBytes(items[..i + 1]))
  {
    RgbStep(items, i);
    var c := items[i];
    CatAssoc(head, EncodeAll(RgbBytes(items[..i])), Encode(c.g) + Encode(c.r), Encode(c.b));
    CatAssoc(before, Encode(c.g), Encode(c.r), Encode(c.b));
  }

  /** The log after one more SK6812W LED's four channel bytes. */
  lemma RgbwSent(head: seq<bv8>, before: seq<bv8>, items: seq<Rgbw>, i: nat)
    requires i < |items| && before == head + EncodeAll(RgbwBytes(items[..i]))
    ensures before + Encode(items[i].g) + Encode(items[i].r) + Encode(items[i].b) + Encode(items[i].w) ==
            head + EncodeAll(RgbwBytes(items[..i + 1]))
  {
    RgbwStep(items, i);
    var c := items[i];
    CatAssoc(head, EncodeAll(RgbwBytes(items[..i])), Encode(c.g) + Encode(c.r) + Encode(c.b), Encode(c.w));
    CatAssoc(before, Encode(c.g) + Encode(c.r), Encode(c.b), Encode(c.w));
    CatAssoc(before, Encode(c.g), Encode(c.r), Encode(c.b));
  }

  const ResetLength: nat := 140

  /** `flush`'s reset gap: 140 zero bytes. */
  function Zeros(n: nat): (s: seq<bv8>)
    ensures |s| == n && forall i | 0 <= i < n :: s[i] == 0
  {
    seq(n, _ => 0)
  }
}

/** `ws2812-spi-rs/src/lib.rs`: the driver that writes each SPI byte as it is made. */
module SpiDirect {
  import opened Common
  import opened SpiEncoding

  /**
   * The SPI bus as the log of the bytes written to it.  Reads return
   * nothing that is used, so they are not logged; a bus that reports an
   * error is not modelled.
   */
  class Ws2812 {
    var log: seq<bv8>
    /** The `mosi_idle_high` feature. */
    const idleHigh: bool

    constructor (idleHigh: bool)
      ensures log == [] && this.idleHigh == idleHigh
    {
      log := [];
      this.idleHigh := idleHigh;
    }

    /** `write_byte(b)`: its four patterns, top bit pair first. */
    method WriteByte(b: bv8)
      modifies this
      ensures log == old(log) + Encode(b)
    {
      var data := b;
      for k := 0 to 4
        invariant data == Shifted(b, k)
        invariant log == old(log) + Encode(b)[..k]
      {
        EncodeStep(b, k);
        var bits := (data & 0xC0) >> 6;
        log := log + [Pattern(bits)];
        data := data << 2;
      }
      assert Encode(b)[..4] == Encode(b);
    }

    /** `flush`: 140 zero bytes, the reset gap. */
    method Flush()
      modifies this
      ensures log == old(log) + Zeros(ResetLength)
    {
      for k := 0 to ResetLength
        invariant log == old(log) + Zeros(k)
      {
        log := log + [0];
      }
    }

    /**
     * `write` for a WS2812 strip: the offset byte 0, the reset gap first
     * when `mosi_idle_high` is set, twelve bytes per LED in green, red,
     * blue order, and the reset gap.
     */
    method Write(items: seq<Rgb>)
      modifies this
      ensures log == old(log) + [0] + (if idleHigh then Zeros(ResetLength) else []) +
                     EncodeAll(RgbBytes(items)) + Zeros(ResetLength)
    {
      log := log + [0];
      if idleHigh {
        Flush();
      }
      ghost var head := log;
      for i := 0 to |items|
        invariant log == head + EncodeAll(RgbBytes(items[..i]))
      {
        RgbSent(head, log, items, i);
        WriteByte(items[i].g);
        WriteByte(items[i].r);
        WriteByte(items[i].b);
      }
      assert items[..|items|] == items;
      Flush();
    }

    /** `write` for an SK6812W strip: sixteen bytes per LED, the white channel last. */
    method WriteRgbw(items: seq<Rgbw>)
      modifies this
      ensures log == old(log) + [0] + (if idleHigh then Zeros(ResetLength) else []) +
                     EncodeAll(RgbwBytes(items)) + Zeros(ResetLength)
    {
      log := log + [0];
      if idleHigh {
        Flush();
      }
      ghost var head := log;
      for i := 0 to |items|
        invariant log == head + EncodeAll(RgbwBytes(items[..i]))
      {
        RgbwSent(head, log, items, i);
        WriteByte(items[i].g);
        WriteByte(items[i].r);
        WriteByte(items[i].b);
        WriteByte(items[i].w);
      }
      assert items[..|items|] == items;
      Flush();
    }
  }
}

/** `ws2812-spi-rs/src/prerendered.rs`: the SPI bytes are rendered into a buffer first. */
module SpiPrerendered {
  import opened Common
  import opened SpiEncoding

  datatype Outcome = Ok | OutOfBounds | Panic

  class Ws2812 {
    /** The caller's buffer, `data: &mut [u8]`. */
    const data: array<bv8>
    var index: nat

    ghost predicate Valid()
      reads this
    {
      index <= data.Length && index % 4 == 0
    }

    /** `new` / `new_sk6812w`: render from the start of `data`. */
    constructor (data: array<bv8>)
      ensures this.data == data && index == 0 && Valid()
    {
      this.data := data;
      index := 0;
    }

    /**
     * `write_byte(b)`: `OutOfBounds`, with nothing changed, when fewer than
     * four bytes are left; otherwise the four patterns at `index`, which
     * moves on by four.  A buffer shorter than four bytes makes
     * `data.len() - 4` underflow, and the call panics.
     */
    method WriteByte(b: bv8) returns (r: Outcome)
      requires Valid()
      modifies this, data
      ensures Valid()
      ensures r == (if data.Length < 4 then Panic else if old(index) > data.Length - 4 then OutOfBounds else Ok)
      ensures r != Ok ==> index == old(index) && data[..] == old(data[..])
      ensures r == Ok ==> index == old(index) + 4 &&
                          data[..] == old(data[..])[..old(index)] + Encode(b) + old(data[..])[old(index) + 4..]
    {
      if data.Length < 4 {
        return Panic;
      }
      if index > data.Length - 4 {
        return OutOfBounds;
      }
      var v := b;
      ghost var start := index;
      ghost var orig := data[..];
      for k := 0 to 4
        invariant index == start + k
        invariant v == Shifted(b, k)
        invariant forall j | 0 <= j < data.Length ::
                    data[j] == if start <= j < start + k then Encode(b)[j - start] else orig[j]
      {
        EncodeStep(b, k);
        EncodeAt(b, k);
        var bits := (v & 0xC0) >> 6;
        data[index] := Pattern(bits);
        index := index + 1;
        v := v << 2;
      }
      assert data[..] == orig[..start] + Encode(b) + orig[start + 4..];
      return Ok;
    }

    /**
     * Encoding `bytes` one by one from `index`: all of them when they fit,
     * otherwise as many as fit, stopping at the first that does not (`?`
     * returns at once), with what was rendered left in place.
     */
    method WriteBytes(bytes: seq<bv8>) returns (r: Outcome)
      requires Valid()
      modifies this, data
      ensures Valid() && old(index) <= index
      ensures r == Panic <==> data.Length < 4 && bytes != []
      ensures r == Ok <==> old(index) + 4 * |bytes| <= data.Length
      ensures r == Ok ==> index == old(index) + 4 * |bytes|
      ensures r == OutOfBounds ==> index == data.Length / 4 * 4
      ensures data[..] == old(data[..])[..old(index)] + EncodeAll(bytes)[..index - old(index)] + old(data[..])[index..]
    {
      ghost var start := index;
      ghost var orig := data[..];
      for i := 0 to |bytes|
        invariant Valid() && index == start + 4 * i
        invariant data[..] == orig[..start] + EncodeAll(bytes[..i]) + orig[index..]
      {
        r := WriteNext(bytes, i, start, orig);
        if r != Ok {
          StoppedData(orig, start, bytes, i, data[..]);
          Stopped(start, data.Length, |bytes|, i, r);
          return;
        }
      }
      assert bytes[..|bytes|] == bytes;
      r := Ok;
    }

    /** One round of `write_bytes`' loop: byte `i` is rendered after the first `i`, if it fits. */
    method WriteNext(bytes: seq<bv8>, i: nat, ghost start: nat, ghost orig: seq<bv8>) returns (r: Outcome)
      requires Valid() && i < |bytes| && index == start + 4 * i && |orig| == data.Length
      requires data[..] == orig[..start] + EncodeAll(bytes[..i]) + orig[index..]
      modifies this, data
      ensures Valid()
      ensures r == (if data.Length < 4 then Panic else if old(index) > data.Length - 4 then OutOfBounds else Ok)
      ensures r != Ok ==> index == old(index) && data[..] == old(data[..])
      ensures r == Ok ==> index == start + 4 * (i + 1) &&
                          data[..] == orig[..start] + EncodeAll(bytes[..i + 1]) + orig[index..]
    {
      r := WriteByte(bytes[i]);
      if r == Ok {
        BufferStep(orig, start, bytes, i);
      }
    }

    /** The buffer when `write_bytes` stops after `i` bytes: their encoding spliced in at `start`. */
    static lemma StoppedData(orig: seq<bv8>, start: nat, bytes: seq<bv8>, i: nat, cur: seq<bv8>)
      requires i <= |bytes| && start + 4 * i <= |orig|
      requires cur == orig[..start] + EncodeAll(bytes[..i]) + orig[start + 4 * i..]
      ensures cur == orig[..start] + EncodeAll(bytes)[..4 * i] + orig[start + 4 * i..]
    {
      EncodeAllPrefix(bytes, i);
    }

    /** What `write_bytes` returns, and where it stops, when byte `i` of `n` does not fit. */
    static lemma Stopped(start: nat, len: nat, n: nat, i: nat, r: Outcome)
      requires i < n && start % 4 == 0 && start + 4 * i <= len
      requires r == (if len < 4 then Panic else if start + 4 * i > len - 4 then OutOfBounds else Ok)
      requires r != Ok
      ensures r == Panic <==> len < 4
      ensures start + 4 * n > len
      ensures r == OutOfBounds ==> start + 4 * i == len / 4 * 4
    {
    }

    /**
     * `write` for a WS2812 strip: render from the start of the buffer,
     * green, red, blue per LED.  It succeeds exactly when the twelve bytes
     * per LED fit; on `OutOfBounds` the whole four-byte groups that fit
     * are rendered.
     */
    method Write(items: seq<Rgb>) returns (r: Outcome)
      requires Valid()
      modifies this, data
      ensures Valid()
      ensures r == Panic <==> data.Length < 4 && items != []
      ensures r == Ok <==> 12 * |items| <= data.Length
      ensures r == Ok ==> index == 12 * |items|
      ensures r == OutOfBounds ==> index == data.Length / 4 * 4
      ensures data[..] == EncodeAll(RgbBytes(items))[..index] + old(data[..])[index..]
    {
      index := 0;
      r := WriteBytes(RgbBytes(items));
    }

    /** `write` for an SK6812W strip: the same with sixteen bytes per LED. */
    method WriteRgbw(items: seq<Rgbw>) returns (r: Outcome)
      requires Valid()
      modifies this, data
      ensures Valid()
      ensures r == Panic <==> data.Length < 4 && items != []
      ensures r == Ok <==> 16 * |items| <= data.Length
      ensures r == Ok ==> index == 16 * |items|
      ensures r == OutOfBounds ==> index == data.Length / 4 * 4
      ensures data[..] == EncodeAll(RgbwBytes(items))[..index] + old(data[..])[index..]
    {
      index := 0;
      r := WriteBytes(RgbwBytes(items));
    }
  }
}
