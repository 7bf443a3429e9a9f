/**
 * `src/ws2812.rs`: a demo for a strip of 20 WS2812 LEDs.  `LightData` holds
 * one colour per LED; `Strip` sends it to the LEDs after every change.
 * Channel values are `u8` and wrap round as a release build does.  The
 * driver is modelled by the list of frames it is sent.
 */
module LedStrip {
  const NumLeds: nat := 20
  const Steps: U8 := 10
  const TopRow: nat := 4
  const MidRow: nat := 10

  type U8 = v: int | 0 <= v < 256

  /** `RGB8`: one byte per channel. */
  datatype Rgb8 = Rgb8(r: U8, g: U8, b: U8)

  const Black := Rgb8(0, 0, 0)

  /** Every LED the same colour. */
  function Solid(c: Rgb8): (leds: seq<Rgb8>)
    ensures |leds| == NumLeds && forall i | 0 <= i < NumLeds :: leds[i] == c
  {
    seq(NumLeds, _ => c)
  }

  // ---------------------------------------------------------------- gradient

  /** Rust's `/` on signed integers, which truncates toward zero. */
  function TruncDiv(a: int, b: int): (q: int)
    requires b > 0
    ensures a >= 0 ==> q == a / b
    ensures a < 0 ==> q == -((-a) / b)
  {
    if a >= 0 then a / b else -((-a) / b)
  }

  /**
   * One channel of LED `i` in `from_gradient`:
   * `from + (delta * i / 19) as u8`, the delta and the product in `i16`
   * (they cannot overflow there), the cast and the sum wrapping in `u8`.
   */
  function Channel(from: U8, to: U8, i: nat): (c: U8)
    requires i < NumLeds
  {
    var q := TruncDiv((to - from) * i, NumLeds - 1);
    (from + q % 256) % 256
  }

  function GradientLed(from: Rgb8, to: Rgb8, i: nat): (c: Rgb8)
    requires i < NumLeds
  {
    Rgb8(Channel(from.r, to.r, i), Channel(from.g, to.g, i), Channel(from.b, to.b, i))
  }

  /** `from_gradient(from, to)` as a list of colours. */
  function Gradient(from: Rgb8, to: Rgb8): (leds: seq<Rgb8>)
    ensures |leds| == NumLeds
  {
    seq(NumLeds, i requires 0 <= i < NumLeds => GradientLed(from, to, i))
  }

  lemma QuotientBound(d: nat, i: nat)
    requires i <= 19
    ensures 0 <= d * i / 19 <= d
  {
    assert d * i <= d * 19 by {
      assert d * (19 - i) >= 0;
    }
  }

  /**
   * The release-build wrap brings each channel back between its two end
   * values, at `from + delta * i / 19` with the division truncated toward
   * zero.
   */
  lemma ChannelBetween(from: U8, to: U8, i: nat)
    requires i < NumLeds
    ensures Channel(from, to, i) == from + TruncDiv((to - from) * i, 19)
    ensures from <= to ==> from <= Channel(from, to, i) <= to
    ensures to <= from ==> to <= Channel(from, to, i) <= from
  {
    var q := TruncDiv((to - from) * i, 19);
    StepBetween(to - from, i);
    NoWrap(from, q);
  }

  /** `delta * i / 19`, truncated, lies between 0 and `delta`. */
  lemma StepBetween(delta: int, i: nat)
    requires i <= 19
    ensures var q := TruncDiv(delta * i, 19);
            (delta >= 0 ==> 0 <= q <= delta) && (delta < 0 ==> delta <= q <= 0)
  {
    if delta >= 0 {
      QuotientBound(delta, i);
    } else {
      QuotientBound(-delta, i);
      assert (-delta) * i == -(delta * i);
    }
  }

  /**
   * Adding `q as u8` to `f` with the `u8` wrap is adding `q` when the true
   * sum fits, even when `q` is negative and the `u8` add overflows.
   */
  lemma NoWrap(f: U8, q: int)
    requires 0 <= f + q < 256 && -256 < q < 256
    ensures (f + q % 256) % 256 == f + q
  {
    if q < 0 {
      assert q % 256 == q + 256;
    }
  }

  /**
   * On a decreasing channel every non-zero step is cast to `q + 256`, so the
   * `u8` add overflows: a debug build panics there, a release build wraps.
   */
  lemma DecreasingChannelOverflows(from: U8, to: U8, i: nat)
    requires i < NumLeds && to < from
    requires TruncDiv((to - from) * i, 19) != 0
    ensures var q := TruncDiv((to - from) * i, 19);
            q < 0 && q % 256 == q + 256 && from + q % 256 >= 256
  {
    StepBetween(to - from, i);
    var q := TruncDiv((to - from) * i, 19);
    assert q % 256 == q + 256;
  }

  /** The gradient starts at `from` and ends at `to`. */
  lemma GradientEnds(from: Rgb8, to: Rgb8)
    ensures Gradient(from, to)[0] == from
    ensures Gradient(from, to)[NumLeds - 1] == to
  {
    ChannelBetween(from.r, to.r, 0);
    ChannelBetween(from.g, to.g, 0);
    ChannelBetween(from.b, to.b, 0);
    ChannelBetween(from.r, to.r, 19);
    ChannelBetween(from.g, to.g, 19);
    ChannelBetween(from.b, to.b, 19);
  }

  /** The demo's gradient from dim red to dim blue: red fades out as blue fades in, green stays off. */
  lemma DemoGradient(i: nat)
    requires i < NumLeds
    ensures var c := Gradient(Rgb8(40, 0, 0), Rgb8(0, 0, 40))[i];
            c.g == 0 && 38 <= c.r + c.b <= 40
  {
    var from, to := Rgb8(40, 0, 0), Rgb8(0, 0, 40);
    ChannelBetween(from.r, to.r, i);
    ChannelBetween(from.g, to.g, i);
    ChannelBetween(from.b, to.b, i);
    var k := 40 * i;
    assert (-40) * i == -k;
    assert k / 19 * 19 <= k < k / 19 * 19 + 19;
  }

  // -------------------------------------------------------------- brightness

  /** `led.r + led.g + led.b` in `u8`, wrapping round. */
  function Level(c: Rgb8): U8
  {
    (c.r + c.g + c.b) % 256
  }

  /** The largest `Level` among `leds` (`iter().map(..).max()`). */
  function MaxLevel(leds: seq<Rgb8>): (m: U8)
    requires |leds| > 0
    ensures exists i | 0 <= i < |leds| :: m == Level(leds[i])
    ensures forall i | 0 <= i < |leds| :: Level(leds[i]) <= m
  {
    if |leds| == 1 then Level(leds[0])
    else
      var m := MaxLevel(leds[..|leds| - 1]);
      var l := Level(leds[|leds| - 1]);
      assert forall i | 0 <= i < |leds| - 1 :: leds[..|leds| - 1][i] == leds[i];
      if l >= m then l else m
  }

  /** The sum wraps: a bright white LED counts for less than a dim grey one. */
  lemma LevelWraps()
    ensures Level(Rgb8(255, 255, 255)) == 253 && Level(Rgb8(100, 100, 100)) == 44
  {
  }

  class LightData {
    /** `leds: [RGB8; NUM_LEDS]`. */
    const leds: array<Rgb8>

    ghost predicate Valid()
      reads this
    {
      leds.Length == NumLeds
    }

    /** `LightData::empty()`: every LED off. */
    constructor Empty()
      ensures Valid() && fresh(leds) && leds[..] == Solid(Black)
    {
      leds := new Rgb8[NumLeds](_ => Black);
    }

    /** `LightData::default()`: every LED a dim white, `STEPS` on each channel. */
    constructor Default()
      ensures Valid() && fresh(leds) && leds[..] == Solid(Rgb8(Steps, Steps, Steps))
    {
      leds := new Rgb8[NumLeds](_ => Rgb8(Steps, Steps, Steps));
    }

    /** `LightData::from_gradient(from, to)`. */
    constructor FromGradient(from: Rgb8, to: Rgb8)
      ensures Valid() && fresh(leds) && leds[..] == Gradient(from, to)
    {
      leds := new Rgb8[NumLeds](_ => Black);
      new;
      for i := 0 to NumLeds
        invariant forall k | 0 <= k < i :: leds[k] == GradientLed(from, to, k)
      {
        leds[i] := GradientLed(from, to, i);
      }
    }

    /** `get_brightness`: the largest wrapped channel sum over all LEDs. */
    function GetBrightness(): (b: U8)
      requires Valid()
      reads this, leds
      ensures exists i | 0 <= i < NumLeds :: b == Level(leds[i])
      ensures forall i | 0 <= i < NumLeds :: Level(leds[i]) <= b
    {
      MaxLevel(leds[..])
    }

    /** `get_led(index)`; an index past the end panics. */
    function GetLed(index: nat): (c: Rgb8)
      requires Valid() && index < NumLeds
      reads this, leds
    {
      leds[index]
    }

    method SetColor(index: nat, color: Rgb8)
      requires Valid() && index < NumLeds
      modifies leds
      ensures leds[..] == old(leds[..])[index := color]
    {
      leds[index] := color;
    }

    method SetRed(index: nat, red: U8)
      requires Valid() && index < NumLeds
      modifies leds
      ensures leds[..] == old(leds[..])[index := old(leds[index]).(r := red)]
    {
      leds[index] := leds[index].(r := red);
    }

    method SetGreen(index: nat, green: U8)
      requires Valid() && index < NumLeds
      modifies leds
      ensures leds[..] == old(leds[..])[index := old(leds[index]).(g := green)]
    {
      leds[index] := leds[index].(g := green);
    }

    method SetBlue(index: nat, blue: U8)
      requires Valid() && index < NumLeds
      modifies leds
      ensures leds[..] == old(leds[..])[index := old(leds[index]).(b := blue)]
    {
      leds[index] := leds[index].(b := blue);
    }

    /** `set_color_all(color)`: `set_color` on every LED in turn. */
    method SetColorAll(color: Rgb8)
      requires Valid()
      modifies leds
      ensures leds[..] == Solid(color)
    {
      for i := 0 to NumLeds
        invariant forall k | 0 <= k < i :: leds[k] == color
      {
        SetColor(i, color);
      }
    }
  }

  /** Setting the three channels of an LED one by one is setting its colour. */
  method ChannelsMakeColor(d: LightData, index: nat, color: Rgb8)
    requires d.Valid() && index < NumLeds
    modifies d.leds
    ensures d.leds[..] == old(d.leds[..])[index := color]
  {
    d.SetRed(index, color.r);
    d.SetGreen(index, color.g);
    d.SetBlue(index, color.b);
  }

  // ------------------------------------------------------------------- strip

  /** The colour the start-up animation gives LED `i`: red on the top row, green in the middle, blue below. */
  function StartupColor(b: U8, i: int): (c: Rgb8)
  {
    if i < TopRow then Rgb8(b, 0, 0)
    else if i < MidRow + TopRow then Rgb8(0, b, 0)
    else Rgb8(0, 0, b)
  }

  /** The strip once the first `k` LEDs are lit by the start-up animation. */
  function StartupFrame(b: U8, k: nat): (leds: seq<Rgb8>)
    ensures |leds| == NumLeds
  {
    seq(NumLeds, i => if i < k then StartupColor(b, i) else Black)
  }

  /** Each LED's step is sent twice: once by `Strip::set_color`, once by the loop's own `write`. */
  function StartupSends(b: U8, k: nat): (frames: seq<seq<Rgb8>>)
    ensures |frames| == 2 * k
  {
    if k == 0 then [] else StartupSends(b, k - 1) + [StartupFrame(b, k), StartupFrame(b, k)]
  }

  /** The strip during shutdown once LEDs `k..` are turned off. */
  function ShutdownFrame(start: seq<Rgb8>, k: nat): (leds: seq<Rgb8>)
    requires |start| == NumLeds
    ensures |leds| == NumLeds
  {
    seq(NumLeds, i requires 0 <= i < NumLeds => if i >= k then Black else start[i])
  }

  /** The frames sent while shutdown turns off LEDs from the last down to `k`. */
  function ShutdownSends(start: seq<Rgb8>, k: nat): (frames: seq<seq<Rgb8>>)
    requires |start| == NumLeds && k <= NumLeds
    ensures |frames| == 2 * (NumLeds - k)
    decreases NumLeds - k
  {
    if k == NumLeds then []
    else ShutdownSends(start, k + 1) + [ShutdownFrame(start, k), ShutdownFrame(start, k)]
  }

  /**
   * The last start-up frame lights the four top LEDs red, the next ten green
   * and the last six blue; each frame adds exactly one LED to the previous.
   */
  lemma StartupFrames(b: U8, k: nat)
    requires k < NumLeds
    ensures StartupFrame(b, NumLeds)[k] == StartupColor(b, k)
    ensures StartupFrame(b, 0) == Solid(Black)
    ensures StartupFrame(b, k + 1) == StartupFrame(b, k)[k := StartupColor(b, k)]
  {
  }

  /** Shutdown starts from the strip as it was and ends with every LED off. */
  lemma ShutdownFrames(start: seq<Rgb8>)
    requires |start| == NumLeds
    ensures ShutdownFrame(start, NumLeds) == start
    ensures ShutdownFrame(start, 0) == Solid(Black)
  {
  }

  class Strip {
    var data: LightData
    var brightness: U8
    /** The frames `write` has sent to the LEDs, oldest first. */
    var sent: seq<seq<Rgb8>>

    ghost predicate Valid()
      reads this, data
    {
      data.Valid()
    }

    /** The demo's strip: the red-to-blue gradient, brightness 10, nothing sent yet. */
    constructor ()
      ensures Valid() && fresh(data) && fresh(data.leds)
      ensures data.leds[..] == Gradient(Rgb8(40, 0, 0), Rgb8(0, 0, 40)) && brightness == 10 && sent == []
    {
      data := new LightData.FromGradient(Rgb8(40, 0, 0), Rgb8(0, 0, 40));
      brightness := 10;
      sent := [];
    }

    /** `write`: the current colours go to the LEDs. */
    method Write()
      requires Valid()
      modifies this
      ensures data == old(data) && brightness == old(brightness)
      ensures sent == old(sent) + [data.leds[..]]
    {
      sent := sent + [data.leds[..]];
    }

    /** `Strip::set_color(color, index)`: change one LED and send. */
    method SetColor(color: Rgb8, index: nat)
      requires Valid() && index < NumLeds
      modifies this, data.leds
      ensures data == old(data) && brightness == old(brightness)
      ensures data.leds[..] == old(data.leds[..])[index := color]
      ensures sent == old(sent) + [data.leds[..]]
    {
      data.SetColor(index, color);
      Write();
    }

    /** `set_solid(color)`: every LED one colour, then send. */
    method SetSolid(color: Rgb8)
      requires Valid()
      modifies this, data.leds
      ensures data == old(data) && brightness == old(brightness)
      ensures data.leds[..] == Solid(color)
      ensures sent == old(sent) + [Solid(color)]
    {
      data.SetColorAll(color);
      Write();
    }

    /**
     * `startup_animation`: clear the strip and send it, then light the LEDs
     * one by one in the colours of their rows, sending each step twice.
     */
    method StartupAnimation()
      requires Valid()
      modifies this
      ensures Valid() && fresh(data) && brightness == old(brightness)
      ensures data.leds[..] == StartupFrame(brightness, NumLeds)
      ensures sent == old(sent) + [StartupFrame(brightness, 0)] + StartupSends(brightness, NumLeds)
    {
      data := new LightData.Empty();
      Write();
      ghost var before := old(sent) + [StartupFrame(brightness, 0)];
      LightRow(0, TopRow, Rgb8(brightness, 0, 0), before);
      LightRow(TopRow, MidRow + TopRow, Rgb8(0, brightness, 0), before);
      LightRow(MidRow + TopRow, NumLeds, Rgb8(0, 0, brightness), before);
    }

    /** One of the start-up loops: light LEDs `lo..hi` in `color`, sending each step twice. */
    method LightRow(lo: nat, hi: nat, color: Rgb8, ghost before: seq<seq<Rgb8>>)
      requires Valid() && lo <= hi <= NumLeds
      requires forall k | lo <= k < hi :: StartupColor(brightness, k) == color
      requires data.leds[..] == StartupFrame(brightness, lo)
      requires sent == before + StartupSends(brightness, lo)
      modifies this, data.leds
      ensures data == old(data) && brightness == old(brightness)
      ensures data.leds[..] == StartupFrame(brightness, hi)
      ensures sent == before + StartupSends(brightness, hi)
    {
      for i := lo to hi
        invariant data == old(data) && brightness == old(brightness)
        invariant data.leds[..] == StartupFrame(brightness, i)
        invariant sent == before + StartupSends(brightness, i)
      {
        SetColor(color, i);
        Write();
      }
    }

    /** `shutdown_animation`: turn the LEDs off from the last to the first, sending each step twice. */
    method ShutdownAnimation()
      requires Valid()
      modifies this, data.leds
      ensures data == old(data) && brightness == old(brightness)
      ensures data.leds[..] == Solid(Black)
      ensures sent == old(sent) + ShutdownSends(old(data.leds[..]), 0)
    {
      ghost var start := data.leds[..];
      var i := NumLeds;
      while i > 0
        invariant 0 <= i <= NumLeds && data == old(data) && brightness == old(brightness)
        invariant data.leds[..] == ShutdownFrame(start, i)
        invariant sent == old(sent) + ShutdownSends(start, i)
      {
        i := i - 1;
        SetColor(Black, i);
        Write();
      }
    }
  }
}
