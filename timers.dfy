/**
 * `cube/src/timers.rs`: the hourglass.  Thirty-two lit pixels fill the top
 * half of the screen; each round a random column still holding pixels
 * drops its lowest one, which blinks and falls four rows into the bottom
 * half.  The hardware random word of each round is a parameter.
 */
module Hourglass {
  import opened Common
  import CubeRand
  import Wrappers

  /** `TimerPixel`: a position and a binary colour (`speed` is a float and left out). */
  datatype TimerPixel = TimerPixel(pos: Point, on: bool)

  /** `TimerPixel::new(pos, _)`: lit. */
  function NewPixel(pos: Point): (p: TimerPixel)
    ensures p.pos == pos && p.on
  {
    TimerPixel(pos, true)
  }

  /** Pixel i of `Timers::default()`: row i / 8, column i % 8. */
  function DefaultPixel(i: nat): TimerPixel
  {
    NewPixel(Point(i % 8, i / 8))
  }

  /** `Timers::default()`: the 32 lit pixels of rows 0..4, row by row. */
  function DefaultPixels(): (ps: seq<TimerPixel>)
    ensures |ps| == 32
    ensures forall i | 0 <= i < 32 :: ps[i] == DefaultPixel(i)
  {
    seq(32, i requires 0 <= i => DefaultPixel(i))
  }

  /** The default pixels cover every (x, y) with x < 8 and y < 4, each exactly once. */
  lemma DefaultPixelsCover(x: int, y: int)
    requires 0 <= x < 8 && 0 <= y < 4
    ensures DefaultPixels()[8 * y + x] == NewPixel(Point(x, y))
    ensures forall i | 0 <= i < 32 && DefaultPixels()[i].pos == Point(x, y) :: i == 8 * y + x
  {
  }

  /** Every default pixel is in one of the eight columns the hourglass draws from. */
  lemma DefaultColumns()
    ensures forall i | 0 <= i < 32 :: 0 <= DefaultPixels()[i].pos.x < 8 && 0 <= DefaultPixels()[i].pos.y < 4
  {
  }

  /** The later of two pixels with the larger y, as `max_by_key` keeps it. */
  function LaterMax(a: TimerPixel, b: TimerPixel): TimerPixel
  {
    if b.pos.y >= a.pos.y then b else a
  }

  /** `max_by_key(y)` over the pixels of column `rx`: on a tie the last one wins. */
  function ColumnMax(ps: seq<TimerPixel>, rx: int): (r: Wrappers.Option<TimerPixel>)
    ensures r.None? <==> forall i | 0 <= i < |ps| :: ps[i].pos.x != rx
    ensures r.Some? ==> r.value in ps && r.value.pos.x == rx
    ensures r.Some? ==> forall i | 0 <= i < |ps| && ps[i].pos.x == rx :: ps[i].pos.y <= r.value.pos.y
  {
    if ps == [] then Wrappers.None
    else
      var rest := ColumnMax(ps[..|ps| - 1], rx);
      var last := ps[|ps| - 1];
      if last.pos.x != rx then rest
      else if rest.None? then Wrappers.Some(last)
      else Wrappers.Some(LaterMax(rest.value, last))
  }

  /** `position(|p| p == q)`: the first index holding `q`. */
  function Position(ps: seq<TimerPixel>, q: TimerPixel): (r: Wrappers.Option<nat>)
    ensures r.None? <==> q !in ps
    ensures r.Some? ==> r.value < |ps| && ps[r.value] == q && q !in ps[..r.value]
  {
    if ps == [] then Wrappers.None
    else if ps[0] == q then Wrappers.Some(0)
    else
      var r := Position(ps[1..], q);
      if r.None? then Wrappers.None
      else
        assert ps[..r.value + 1] == [ps[0]] + ps[1..][..r.value];
        Wrappers.Some(r.value + 1)
  }

  /** `last(rx)`: the index of a lowest pixel (largest y) of column `rx`, if it has any. */
  function Last(ps: seq<TimerPixel>, rx: int): (r: Wrappers.Option<nat>)
    ensures r.None? <==> forall i | 0 <= i < |ps| :: ps[i].pos.x != rx
    ensures r.Some? ==> r.value < |ps| && ps[r.value].pos.x == rx
    ensures r.Some? ==> forall i | 0 <= i < |ps| && ps[i].pos.x == rx :: ps[i].pos.y <= ps[r.value].pos.y
  {
    var m := ColumnMax(ps, rx);
    if m.None? then Wrappers.None else Position(ps, m.value)
  }

  /** `TimerPixel::blink`'s colour change, one inversion. */
  function Inverted(p: TimerPixel): (q: TimerPixel)
    ensures q.pos == p.pos && q.on == !p.on
  {
    p.(on := !p.on)
  }

  /** `TimerPixel::blink`: three inversions, which leave the colour inverted. */
  method Blink(p: TimerPixel) returns (q: TimerPixel)
    ensures q == Inverted(p)
  {
    q := p;
    for k := 0 to 3
      invariant q.pos == p.pos && q.on == (if k % 2 == 0 then p.on else !p.on)
    {
      q := Inverted(q);
    }
  }

  /** `TimerPixel::move`: lit again, four rows further down. */
  function Fallen(p: TimerPixel): (q: TimerPixel)
    ensures q.on && q.pos == Point(p.pos.x, p.pos.y + 4)
  {
    TimerPixel(Point(p.pos.x, p.pos.y + 4), true)
  }

  /** Every pixel's column is still on the list of columns to draw from. */
  ghost predicate ColumnsListed(ps: seq<TimerPixel>, rxs: seq<int>)
  {
    forall i | 0 <= i < |ps| :: ps[i].pos.x in rxs
  }

  /** Removing entry `k` of a sequence. */
  function Remove<T>(s: seq<T>, k: nat): (r: seq<T>)
    requires k < |s|
    ensures |r| == |s| - 1
    ensures multiset(r) + multiset{s[k]} == multiset(s)
  {
    assert s == s[..k] + [s[k]] + s[k + 1..];
    s[..k] + s[k + 1..]
  }

  /**
   * Each pixel taken was the lowest of its column when it was taken: no pixel
   * taken later, and none left, is lower in the same column.
   */
  ghost predicate TakenLowest(removed: seq<TimerPixel>, left: seq<TimerPixel>)
  {
    && (forall i, j | 0 <= i < |removed| && 0 <= j < |left| && left[j].pos.x == removed[i].pos.x ::
          left[j].pos.y <= removed[i].pos.y)
    && (forall i, k | 0 <= i < k < |removed| && removed[k].pos.x == removed[i].pos.x ::
          removed[k].pos.y <= removed[i].pos.y)
  }

  /** Taking a lowest pixel of its column keeps `TakenLowest`. */
  lemma TakeLowest(removed: seq<TimerPixel>, ps: seq<TimerPixel>, k: nat)
    requires k < |ps| && TakenLowest(removed, ps)
    requires forall i | 0 <= i < |ps| && ps[i].pos.x == ps[k].pos.x :: ps[i].pos.y <= ps[k].pos.y
    ensures TakenLowest(removed + [ps[k]], Remove(ps, k))
  {
    var left, taken := Remove(ps, k), removed + [ps[k]];
    forall j | 0 <= j < |left| ensures left[j] in ps {
      assert left[j] in multiset(left);
    }
    forall i, j | 0 <= i < |taken| && 0 <= j < |left| && left[j].pos.x == taken[i].pos.x
      ensures left[j].pos.y <= taken[i].pos.y
    {
      var m :| 0 <= m < |ps| && ps[m] == left[j];
    }
    forall i, l | 0 <= i < l < |taken| && taken[l].pos.x == taken[i].pos.x
      ensures taken[l].pos.y <= taken[i].pos.y
    {
      if l == |removed| {
        assert taken[l] == ps[k];
      }
    }
  }

  /** Striking an empty column from the list keeps every pixel's column listed. */
  lemma StrikeColumn(ps: seq<TimerPixel>, rxs: seq<int>, rx: nat)
    requires rx < |rxs| && ColumnsListed(ps, rxs)
    requires forall i | 0 <= i < |ps| :: ps[i].pos.x != rxs[rx]
    ensures ColumnsListed(ps, Remove(rxs, rx))
  {
    forall i | 0 <= i < |ps| ensures ps[i].pos.x in Remove(rxs, rx) {
      assert ps[i].pos.x in multiset(Remove(rxs, rx)) + multiset{rxs[rx]};
    }
  }

  /** Taking pixel k moves it from the pixels to the taken list and keeps the columns listed. */
  lemma TakeKeeps(removed: seq<TimerPixel>, ps: seq<TimerPixel>, k: nat, rxs: seq<int>)
    requires k < |ps| && ColumnsListed(ps, rxs)
    ensures multiset(Remove(ps, k)) + multiset(removed + [ps[k]]) == multiset(ps) + multiset(removed)
    ensures ColumnsListed(Remove(ps, k), rxs)
  {
    var left := Remove(ps, k);
    forall j | 0 <= j < |left| ensures left[j].pos.x in rxs {
      assert left[j] in multiset(left);
      assert left[j] in ps;
    }
  }

  /** What the falling loop keeps: the columns listed, nothing lost, each taken pixel fallen and a lowest one. */
  ghost predicate RunInv(orig: seq<TimerPixel>, ps: seq<TimerPixel>, rxs: seq<int>,
                         removed: seq<TimerPixel>, fallen: seq<TimerPixel>)
  {
    && |rxs| <= 8 && ColumnsListed(ps, rxs)
    && multiset(ps) + multiset(removed) == multiset(orig)
    && |fallen| == |removed|
    && (forall i | 0 <= i < |removed| :: fallen[i] == Fallen(Inverted(removed[i])))
    && TakenLowest(removed, ps)
  }

  /**
   * One round of the falling loop for one random word: strike the drawn
   * column if it is empty, otherwise take its lowest pixel, blink it and
   * let it fall.
   */
  method FallOne(ghost orig: seq<TimerPixel>, ps: seq<TimerPixel>, rxs: seq<int>,
                 removed: seq<TimerPixel>, fallen: seq<TimerPixel>, seed: CubeRand.U64)
    returns (ps': seq<TimerPixel>, rxs': seq<int>, removed': seq<TimerPixel>, fallen': seq<TimerPixel>)
    requires ps != [] && RunInv(orig, ps, rxs, removed, fallen)
    ensures RunInv(orig, ps', rxs', removed', fallen')
    ensures |ps'| + |rxs'| < |ps| + |rxs|
  {
    assert ps[0].pos.x in rxs;
    var rx := CubeRand.RandomFrom(seed, 0, |rxs|);
    var index := Last(ps, rxs[rx]);
    if index.None? {
      StrikeColumn(ps, rxs, rx);
      return ps, Remove(rxs, rx), removed, fallen;
    }
    var pixel := ps[index.value];
    TakeLowest(removed, ps, index.value);
    TakeKeeps(removed, ps, index.value, rxs);
    var blinked := Blink(pixel);
    ps', rxs', removed', fallen' := Remove(ps, index.value), rxs, removed + [pixel], fallen + [Fallen(blinked)];
  }

  class Timers {
    var pixels: seq<TimerPixel>

    /** `Timers::default()`, built row by row as the nested loops build it. */
    constructor ()
      ensures pixels == DefaultPixels()
    {
      var ps: seq<TimerPixel> := [];
      for y := 0 to 4
        invariant |ps| == 8 * y
        invariant forall i | 0 <= i < |ps| :: ps[i] == DefaultPixel(i)
      {
        for x := 0 to 8
          invariant |ps| == 8 * y + x
          invariant forall i | 0 <= i < |ps| :: ps[i] == DefaultPixel(i)
        {
          ps := ps + [NewPixel(Point(x, y))];
        }
      }
      pixels := ps;
    }

    /**
     * The falling loop of `run`, one round per random word.  A column
     * found empty is struck from `rxs`; otherwise its lowest pixel leaves
     * `pixels`, and `fallen` records it after its blink and fall.  The loop
     * stops when no pixel is left (or the words run out).
     */
    method Run(seeds: seq<CubeRand.U64>) returns (removed: seq<TimerPixel>, fallen: seq<TimerPixel>)
      requires forall i | 0 <= i < |pixels| :: 0 <= pixels[i].pos.x < 8
      modifies this
      ensures multiset(pixels) + multiset(removed) == multiset(old(pixels))
      ensures |fallen| == |removed|
      ensures forall i | 0 <= i < |removed| :: fallen[i] == Fallen(Inverted(removed[i]))
      ensures TakenLowest(removed, pixels)
      ensures |seeds| >= |old(pixels)| + 8 ==> pixels == []
    {
      var ps := pixels;
      var rxs: seq<int> := [0, 1, 2, 3, 4, 5, 6, 7];
      assert ColumnsListed(ps, rxs) by {
        forall i | 0 <= i < |ps| ensures ps[i].pos.x in rxs {
          assert rxs[ps[i].pos.x] == ps[i].pos.x;
        }
      }
      removed, fallen := [], [];
      var n := 0;
      while n < |seeds| && ps != []
        invariant 0 <= n <= |seeds|
        invariant RunInv(old(pixels), ps, rxs, removed, fallen)
        invariant |ps| + |rxs| + n <= |old(pixels)| + 8
        decreases |seeds| - n
      {
        ps, rxs, removed, fallen := FallOne(old(pixels), ps, rxs, removed, fallen, seeds[n]);
        n := n + 1;
      }
      pixels := ps;
    }
  }
}
