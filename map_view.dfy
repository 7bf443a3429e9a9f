/**
 * `cube/src/map.rs`: a game map is a list of coloured, tagged cells; the
 * `Vision` is the 8x8 window of it the LED matrix shows, placed around the
 * player and moved one step at a time.
 */
module MapView {
  import opened Common

  /** `MapCell<T> = (Pixel<Rgb888>, T)` */
  datatype Cell<T> = Cell(pos: Point, color: Rgb, tag: T)

  datatype Map<T> = Map(width: nat, height: nat, data: seq<Cell<T>>)

  /** `Map::new`: the given size and no cells. */
  function NewMap<T>(width: nat, height: nat): (m: Map<T>)
    ensures m.width == width && m.height == height && m.data == []
  {
    Map(width, height, [])
  }

  /**
   * The window origin along one axis for a player at `p` on an axis of
   * length `size`: 0 near the start or on a short axis, `size - 8` near the
   * end, else three cells before the player.
   */
  function Place(p: int, size: nat): int
  {
    if p - 3 <= 0 || size < 8 then 0
    else if p + 5 >= size then p - 8 + size - p
    else p - 3
  }

  /** On an axis of at least 8 the window fits the map and contains the player. */
  lemma PlaceBounds(p: int, size: nat)
    requires size >= 8 && 0 <= p < size
    ensures 0 <= Place(p, size) <= size - 8
    ensures Place(p, size) <= p < Place(p, size) + 8
  {
  }

  /** A short axis always starts the window at 0. */
  lemma PlaceShort(p: int, size: nat)
    requires size < 8
    ensures Place(p, size) == 0
  {
  }

  lemma PlaceExample()
    ensures Place(18, 20) == 12
  {
  }

  /** A cell is shown when it lies in the window along every axis of length at least 8. */
  predicate Shown(width: nat, height: nat, pos: Point, c: Point)
  {
    (width < 8 || pos.x <= c.x < pos.x + 8) && (height < 8 || pos.y <= c.y < pos.y + 8)
  }

  /** `iter().filter(..).cloned().collect()`: the cells within `[pos, pos + 8)` along the chosen axes. */
  function Keep<T>(s: seq<Cell<T>>, byX: bool, byY: bool, pos: Point): (r: seq<Cell<T>>)
    ensures |r| <= |s|
    ensures forall c | c in r :: c in s
  {
    if s == [] then []
    else
      var c := s[0].pos;
      var rest := Keep(s[1..], byX, byY, pos);
      if (!byX || pos.x <= c.x < pos.x + 8) && (!byY || pos.y <= c.y < pos.y + 8)
      then [s[0]] + rest
      else rest
  }

  /** The window contents for a map whose longer axes are filtered. */
  function Window<T>(m: Map<T>, pos: Point): seq<Cell<T>>
  {
    Keep(m.data, m.width >= 8, m.height >= 8, pos)
  }

  /** `a` is `b` with some elements dropped, the rest in order. */
  predicate Subsequence<T(==)>(a: seq<T>, b: seq<T>)
    decreases |b|
  {
    if a == [] then true
    else if b == [] then false
    else if a[0] == b[0] then Subsequence(a[1..], b[1..])
    else Subsequence(a, b[1..])
  }

  /** Filtering keeps exactly the cells inside the window along the chosen axes. */
  lemma {:induction false} KeepMembers<T>(s: seq<Cell<T>>, byX: bool, byY: bool, pos: Point)
    ensures forall c :: c in Keep(s, byX, byY, pos) <==>
              c in s && (!byX || pos.x <= c.pos.x < pos.x + 8) && (!byY || pos.y <= c.pos.y < pos.y + 8)
    decreases |s|
  {
    if s != [] {
      KeepMembers(s[1..], byX, byY, pos);
      assert s == [s[0]] + s[1..];
    }
  }

  /** The window holds exactly the shown cells of the map. */
  lemma WindowMembers<T>(m: Map<T>, pos: Point)
    ensures forall c :: c in Window(m, pos) <==> c in m.data && Shown(m.width, m.height, pos, c.pos)
  {
    KeepMembers(m.data, m.width >= 8, m.height >= 8, pos);
  }

  /** Filtering keeps the map's order: the window is a subsequence of the map. */
  lemma {:induction false} KeepSubsequence<T>(s: seq<Cell<T>>, byX: bool, byY: bool, pos: Point)
    ensures Subsequence(Keep(s, byX, byY, pos), s)
    decreases |s|
  {
    if s != [] {
      var rest := Keep(s[1..], byX, byY, pos);
      KeepSubsequence(s[1..], byX, byY, pos);
      var c := s[0].pos;
      if !((!byX || pos.x <= c.x < pos.x + 8) && (!byY || pos.y <= c.y < pos.y + 8)) {
        if rest != [] {
          KeepOnlyShown(s[1..], byX, byY, pos);
          assert rest[0] in rest;
        }
      }
    }
  }

  lemma {:induction false} KeepOnlyShown<T>(s: seq<Cell<T>>, byX: bool, byY: bool, pos: Point)
    ensures forall c | c in Keep(s, byX, byY, pos) ::
              (!byX || pos.x <= c.pos.x < pos.x + 8) && (!byY || pos.y <= c.pos.y < pos.y + 8)
    decreases |s|
  {
    if s != [] {
      KeepOnlyShown(s[1..], byX, byY, pos);
    }
  }

  /** Both axes shorter than 8: the window is the whole map. */
  lemma {:induction false} SmallMapWindow<T>(m: Map<T>, pos: Point)
    requires m.width < 8 && m.height < 8
    ensures Window(m, pos) == m.data
  {
    KeepAll(m.data, pos);
  }

  lemma {:induction false} KeepAll<T>(s: seq<Cell<T>>, pos: Point)
    ensures Keep(s, false, false, pos) == s
    decreases |s|
  {
    if s != [] {
      KeepAll(s[1..], pos);
    }
  }

  /**
   * `update`'s test, negated: the candidate origin is accepted unless it is
   * "overlapping".  Both axes short: never.  One short axis: `x > w-7` (or
   * `y > h-7`) on the short one, `>= h-7` (`>= w-7`) on the other.
   */
  predicate Accepts(width: nat, height: nat, p: Point)
  {
    if width < 8 && height < 8 then false
    else if width < 8 then !(p.x < 0 || p.y < 0 || p.x > width - 7 || p.y >= height - 7)
    else if height < 8 then !(p.x < 0 || p.y < 0 || p.x >= width - 7 || p.y > height - 7)
    else !(p.x < 0 || p.y < 0 || p.x >= width - 7 || p.y >= height - 7)
  }

  /** On a map of at least 8x8 an origin is accepted iff the whole window lies on the map. */
  lemma AcceptsLarge(width: nat, height: nat, p: Point)
    requires width >= 8 && height >= 8
    ensures Accepts(width, height, p) <==> 0 <= p.x <= width - 8 && 0 <= p.y <= height - 8
  {
  }

  /**
   * A map narrower than 8 (but at least 8 tall) scrolls vertically only with
   * the window at x = 0, and only when it is exactly 7 wide; narrower maps
   * never scroll.  The height-short case mirrors it.
   */
  lemma AcceptsNarrow(width: nat, height: nat, p: Point)
    requires width < 8 <= height
    ensures Accepts(width, height, p) <==> 0 <= p.x <= width - 7 && 0 <= p.y <= height - 8
    ensures width < 7 ==> !Accepts(width, height, p)
  {
  }

  /** The window origin is a valid origin for a large map. */
  predicate InRange(width: nat, height: nat, pos: Point)
  {
    0 <= pos.x <= width - 8 && 0 <= pos.y <= height - 8
  }

  class Vision<T(==)> {
    var pos: Point
    var data: seq<Cell<T>>

    /** `Vision::new`: origin placed around the player, no cells yet. */
    constructor (width: nat, height: nat, player: Point)
      ensures pos == Point(Place(player.x, width), Place(player.y, height))
      ensures data == []
      ensures width >= 8 && height >= 8 && 0 <= player.x < width && 0 <= player.y < height ==>
                InRange(width, height, pos) &&
                pos.x <= player.x < pos.x + 8 && pos.y <= player.y < pos.y + 8
    {
      pos := Point(Place(player.x, width), Place(player.y, height));
      data := [];
      if width >= 8 && height >= 8 && 0 <= player.x < width && 0 <= player.y < height {
        PlaceBounds(player.x, width);
        PlaceBounds(player.y, height);
      }
    }

    /** `next_pos`: the origin one step towards `d`, without moving. */
    function NextPos(d: Direction): (r: Point)
      reads this
      ensures r == Step(pos, d)
    {
      match d
      case None => pos
      case Up => pos.(y := pos.y - 1)
      case Right => pos.(x := pos.x + 1)
      case Down => pos.(y := pos.y + 1)
      case Left => pos.(x := pos.x - 1)
    }

    /** `move` */
    method Move(d: Direction)
      modifies this
      ensures pos == Step(old(pos), d) && data == old(data)
    {
      pos := NextPos(d);
    }

    /** `update_data`: recompute the window contents from the map. */
    method UpdateData(m: Map<T>)
      modifies this
      ensures pos == old(pos)
      ensures data == Window(m, pos)
      ensures Subsequence(data, m.data)
      ensures forall c :: c in data <==> c in m.data && Shown(m.width, m.height, pos, c.pos)
    {
      if m.width < 8 && m.height < 8 {
        data := m.data;
        SmallMapWindow(m, pos);
      } else if m.width < 8 {
        data := Keep(m.data, false, true, pos);
      } else if m.height < 8 {
        data := Keep(m.data, true, false, pos);
      } else {
        data := Keep(m.data, true, true, pos);
      }
      KeepSubsequence(m.data, m.width >= 8, m.height >= 8, pos);
      WindowMembers(m, pos);
    }

    /**
     * `update`: move the window one step and recompute its contents, unless
     * the new origin is rejected, in which case nothing changes.
     */
    method Update(d: Direction, m: Map<T>)
      modifies this
      ensures Accepts(m.width, m.height, Step(old(pos), d)) ==>
                pos == Step(old(pos), d) && data == Window(m, pos)
      ensures !Accepts(m.width, m.height, Step(old(pos), d)) ==>
                pos == old(pos) && data == old(data)
      ensures m.width >= 8 && m.height >= 8 && old(InRange(m.width, m.height, pos)) ==>
                InRange(m.width, m.height, pos)
      ensures m.width < 8 && m.height < 8 ==> pos == old(pos) && data == old(data)
      ensures old(data == Window(m, pos)) ==> data == Window(m, pos)
    {
      var next := NextPos(d);
      var x, y := next.x, next.y;
      var overlapping :=
        if m.width < 8 && m.height < 8 then true
        else if m.width < 8 then x < 0 || y < 0 || x > m.width - 7 || y >= m.height - 7
        else if m.height < 8 then x < 0 || y < 0 || x >= m.width - 7 || y > m.height - 7
        else x < 0 || y < 0 || x >= m.width - 7 || y >= m.height - 7;
      if overlapping {
        return;
      }
      if m.width >= 8 && m.height >= 8 {
        AcceptsLarge(m.width, m.height, next);
      }
      Move(d);
      UpdateData(m);
    }
  }
}
