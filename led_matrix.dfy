/**
 * `smart-leds-matrix/src/lib.rs`: a drawing target over a strip of `N`
 * LEDs.  Drawn pixels are stored in `content` at the index the layout gives
 * them; the brightness is applied only when the strip is flushed, which is
 * not part of this model.
 */
module LedMatrix {
  import opened Common
  import opened LedLayout
  import Wrappers

  /** A pixel handed to `draw_iter`: an `i32` point and its colour. */
  datatype Pixel = Pixel(pos: Point, color: Rgb)

  predicate I32Pixels(pixels: seq<Pixel>)
  {
    forall i | 0 <= i < |pixels| :: IsI32Point(pixels[i].pos)
  }

  /** The LED a pixel lands on, when it lands on one of the `n` stored ones. */
  function Target(layout: Rectangular, n: nat, p: Pixel): (r: Wrappers.Option<nat>)
    requires IsI32Point(p.pos)
    ensures r.Some? ==> r.value < n && Map(layout, p.pos) == r
  {
    var i := Map(layout, p.pos);
    if i.Some? && i.value < n then i else Wrappers.None
  }

  /** `content` after drawing `pixels` in order. */
  function Drawn(layout: Rectangular, content: seq<Rgb>, pixels: seq<Pixel>): (r: seq<Rgb>)
    requires I32Pixels(pixels)
    ensures |r| == |content|
    decreases |pixels|
  {
    if pixels == [] then content
    else
      var last := pixels[|pixels| - 1];
      var before := Drawn(layout, content, pixels[..|pixels| - 1]);
      var t := Target(layout, |content|, last);
      if t.Some? then before[t.value := last.color] else before
  }

  /**
   * After drawing, LED `k` holds the colour of the last pixel aimed at it,
   * or is unchanged when no pixel was.
   */
  lemma {:induction false} DrawnAt(layout: Rectangular, content: seq<Rgb>, pixels: seq<Pixel>, k: nat)
    requires I32Pixels(pixels) && k < |content|
    ensures (forall i | 0 <= i < |pixels| :: Target(layout, |content|, pixels[i]) != Wrappers.Some(k)) ==>
            Drawn(layout, content, pixels)[k] == content[k]
    ensures forall i | 0 <= i < |pixels| && Target(layout, |content|, pixels[i]) == Wrappers.Some(k) &&
                       (forall j | i < j < |pixels| :: Target(layout, |content|, pixels[j]) != Wrappers.Some(k)) ::
              Drawn(layout, content, pixels)[k] == pixels[i].color
    decreases |pixels|
  {
    if pixels != [] {
      var init := pixels[..|pixels| - 1];
      assert I32Pixels(init) by {
        forall i | 0 <= i < |init| ensures IsI32Point(init[i].pos) {
          assert init[i] == pixels[i];
        }
      }
      DrawnAt(layout, content, init, k);
      forall i | 0 <= i < |pixels| - 1
        ensures Target(layout, |content|, init[i]) == Target(layout, |content|, pixels[i])
      {
        assert init[i] == pixels[i];
      }
    }
  }

  class SmartLedMatrix {
    const layout: Rectangular
    /** `content: [RGB8; N]`. */
    const content: array<Rgb>
    var brightness: bv8

    /** `new(layout)`: every LED black, full brightness. */
    constructor (layout: Rectangular, n: nat)
      ensures this.layout == layout && content.Length == n && fresh(content)
      ensures forall i | 0 <= i < n :: content[i] == Black
      ensures brightness == 255
    {
      this.layout := layout;
      content := new Rgb[n](_ => Black);
      brightness := 255;
    }

    /** `set_brightness`; `brightness()` then returns the value set. */
    method SetBrightness(b: bv8)
      modifies this
      ensures brightness == b
    {
      brightness := b;
    }

    function Brightness(): (b: bv8)
      reads this
    {
      brightness
    }

    /** `size()` is the layout's size. */
    function Size(): (s: (U32, U32))
      ensures s == (layout.width, layout.height)
    {
      LedLayout.Size(layout)
    }

    /**
     * `draw_iter(pixels)`: each pixel whose layout index is below `N` is
     * stored there, later pixels over earlier ones; the rest are dropped.
     * The error type is `Infallible`, so there is nothing to return.
     */
    method DrawIter(pixels: seq<Pixel>)
      requires I32Pixels(pixels)
      modifies content
      ensures content[..] == Drawn(layout, old(content[..]), pixels)
    {
      ghost var start := content[..];
      for i := 0 to |pixels|
        invariant content[..] == Drawn(layout, start, pixels[..i])
      {
        assert pixels[..i + 1][..i] == pixels[..i];
        var t := Map(layout, pixels[i].pos);
        if t.Some? && t.value < content.Length {
          content[t.value] := pixels[i].color;
        }
      }
      assert pixels[..|pixels|] == pixels;
    }
  }

  /** `set_brightness(b)` followed by `brightness()` gives back `b`. */
  method BrightnessRoundTrip(m: SmartLedMatrix, b: bv8) returns (r: bv8)
    modifies m
    ensures r == b
  {
    m.SetBrightness(b);
    r := m.Brightness();
  }
}
