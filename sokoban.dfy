/**
 * `cube/src/sokoban.rs`: a level read from XSB text, boxes pushed one cell
 * at a time, and the win test "every box is on a goal".
 */
module Sokoban {
  import opened Common
  import opened MapView
  import opened Players
  import Wrappers

  /** What a map cell stands for. */
  datatype TargetType = Man | Box | Wall | Goal | Floor

  /** `MapCell::default()`: origin, black, `Floor`. */
  const DefaultCell: Cell<TargetType> := Cell(Point(0, 0), Black, Floor)

  // ------------------------------------------------------------ text helpers

  /** `char::is_whitespace`: the Unicode White_Space property. */
  predicate IsWhitespace(c: char)
  {
    ('\U{0009}' <= c <= '\U{000D}') || c == ' ' || c == '\U{0085}' || c == '\U{00A0}' ||
    c == '\U{1680}' || ('\U{2000}' <= c <= '\U{200A}') || c == '\U{2028}' || c == '\U{2029}' ||
    c == '\U{202F}' || c == '\U{205F}' || c == '\U{3000}'
  }

  function TrimStart(s: string): (r: string)
    ensures |r| <= |s| && r == s[|s| - |r|..]
    ensures r == [] || !IsWhitespace(r[0])
    ensures forall i | 0 <= i < |s| - |r| :: IsWhitespace(s[i])
  {
    if s != [] && IsWhitespace(s[0]) then TrimStart(s[1..]) else s
  }

  function TrimEnd(s: string): (r: string)
    ensures |r| <= |s| && r == s[..|r|]
    ensures r == [] || !IsWhitespace(r[|r| - 1])
    ensures forall i | |r| <= i < |s| :: IsWhitespace(s[i])
  {
    if s != [] && IsWhitespace(s[|s| - 1]) then TrimEnd(s[..|s| - 1]) else s
  }

  /** `str::trim`: the slice without leading and trailing whitespace. */
  function Trim(s: string): (r: string)
    ensures exists i, j | 0 <= i <= j <= |s| :: r == s[i..j]
    ensures r == [] || (!IsWhitespace(r[0]) && !IsWhitespace(r[|r| - 1]))
  {
    var t := TrimStart(s);
    var r := TrimEnd(t);
    assert r == s[|s| - |t|..|s| - |t| + |r|];
    r
  }

  /** The index of the first `c` in `s`, or `|s|`. */
  function IndexOf(s: string, c: char): (k: nat)
    ensures k <= |s| && c !in s[..k] && (k < |s| ==> s[k] == c)
  {
    if s == [] then 0
    else if s[0] == c then 0
    else
      var k := 1 + IndexOf(s[1..], c);
      assert s[..k] == [s[0]] + s[1..][..k - 1];
      k
  }

  /** A line's `\r` before its `\n` is not part of the line. */
  function StripCr(line: string): string
  {
    if line != [] && line[|line| - 1] == '\r' then line[..|line| - 1] else line
  }

  /**
   * `str::lines`: split at `\n`, dropping a `\r` just before it; a final
   * line ending adds no empty line, and an empty string has no lines.
   */
  function Lines(s: string): (r: seq<string>)
    ensures forall i | 0 <= i < |r| :: '\n' !in r[i]
    decreases |s|
  {
    if s == [] then []
    else
      var k := IndexOf(s, '\n');
      if k == |s| then [s]
      else [StripCr(s[..k])] + Lines(s[k + 1..])
  }

  /** The lines joined back with `\n`. */
  function Join(ls: seq<string>): string
  {
    if ls == [] then [] else if |ls| == 1 then ls[0] else ls[0] + "\n" + Join(ls[1..])
  }

  /** Without carriage returns and without a final newline, splitting and joining restore the text. */
  lemma {:induction false} LinesJoin(s: string)
    requires '\r' !in s && (s == [] || s[|s| - 1] != '\n')
    ensures Join(Lines(s)) == s
    decreases |s|
  {
    if s != [] {
      var k := IndexOf(s, '\n');
      if k < |s| {
        var head, rest := s[..k], s[k + 1..];
        SplitParts(s, k);
        LinesJoin(rest);
        JoinCons(head, Lines(rest));
      }
    }
  }

  /** The two sides of the first line break keep the text's properties, and the line has no `\r` to strip. */
  lemma SplitParts(s: string, k: nat)
    requires '\r' !in s && s != [] && s[|s| - 1] != '\n'
    requires k == IndexOf(s, '\n') && k < |s|
    ensures var rest := s[k + 1..];
            '\r' !in rest && rest != [] && rest[|rest| - 1] != '\n' && Lines(rest) != []
    ensures StripCr(s[..k]) == s[..k]
    ensures Lines(s) == [s[..k]] + Lines(s[k + 1..])
    ensures s == s[..k] + "\n" + s[k + 1..]
  {
    var head, rest := s[..k], s[k + 1..];
    assert rest[|rest| - 1] == s[|s| - 1];
    SliceNoCr(s, k + 1, |s|);
    assert s[k + 1..|s|] == rest;
    SliceNoCr(s, 0, k);
    assert s[0..k] == head;
    LinesNonEmpty(rest);
  }

  /** A slice of a text without `\r` has none either. */
  lemma SliceNoCr(s: string, a: nat, b: nat)
    requires '\r' !in s && a <= b <= |s|
    ensures '\r' !in s[a..b]
  {
    forall i | 0 <= i < b - a ensures s[a..b][i] != '\r' {
      assert s[a..b][i] == s[a + i];
    }
  }

  /** A non-empty text has at least one line. */
  lemma LinesNonEmpty(s: string)
    requires s != []
    ensures Lines(s) != []
  {
  }

  /** Joining a line in front of at least one more line puts a `\n` between them. */
  lemma JoinCons(head: string, ls: seq<string>)
    requires ls != []
    ensures Join([head] + ls) == head + "\n" + Join(ls)
  {
    assert ([head] + ls)[1..] == ls;
  }

  // ------------------------------------------------------------ level parsing

  /** The four lists `from_xsb` fills. */
  datatype Level = Level(data: seq<Cell<TargetType>>, player: Cell<TargetType>,
                         boxes: seq<Cell<TargetType>>, goals: seq<Cell<TargetType>>)

  const EmptyLevel := Level([], DefaultCell, [], [])

  datatype List = MapData | Boxes | Goals

  function Get(l: Level, k: List): seq<Cell<TargetType>>
  {
    match k
    case MapData => l.data
    case Boxes => l.boxes
    case Goals => l.goals
  }

  /** The colour and tag a character pushes onto list k, if any. */
  function Push(k: List, c: char): Wrappers.Option<(Rgb, TargetType)>
  {
    match k
    case MapData =>
      if c == '#' then Wrappers.Some((CssWhite, Wall))
      else if c == '.' then Wrappers.Some((CssGreen, Goal))
      else Wrappers.None
    case Boxes =>
      if c == '$' || c == '*' then Wrappers.Some((CssBlue, Box)) else Wrappers.None
    case Goals =>
      if c == '+' || c == '*' || c == '.' then Wrappers.Some((CssGreen, Goal)) else Wrappers.None
  }

  /** What is pushed onto list k for character c at (x, y). */
  function Emit(k: List, c: char, x: int, y: int): seq<Cell<TargetType>>
  {
    if Push(k, c).Some? then [Cell(Point(x, y), Push(k, c).value.0, Push(k, c).value.1)] else []
  }

  /** One character of the nested loop. */
  function ScanChar(l: Level, c: char, x: int, y: int): Level
  {
    Level(l.data + Emit(MapData, c, x, y),
          if c == '@' || c == '+' then Cell(Point(x, y), CssRed, Man) else l.player,
          l.boxes + Emit(Boxes, c, x, y),
          l.goals + Emit(Goals, c, x, y))
  }

  /** The first n characters of line y. */
  function ScanRow(l: Level, line: string, y: int, n: nat): Level
    requires n <= |line|
  {
    if n == 0 then l else ScanChar(ScanRow(l, line, y, n - 1), line[n - 1], n - 1, y)
  }

  /** The first n lines. */
  function ScanRows(lines: seq<string>, n: nat): Level
    requires n <= |lines|
  {
    if n == 0 then EmptyLevel else ScanRow(ScanRows(lines, n - 1), lines[n - 1], n - 1, |lines[n - 1]|)
  }

  /** Cell c comes from the character at its position among the first n lines, on list k. */
  predicate FromText(lines: seq<string>, n: nat, k: List, c: Cell<TargetType>)
    requires n <= |lines|
  {
    0 <= c.pos.y < n && 0 <= c.pos.x < |lines[c.pos.y]| &&
    Push(k, lines[c.pos.y][c.pos.x]) == Wrappers.Some((c.color, c.tag))
  }

  /** Cell c comes from the first m characters of one line y. */
  predicate FromLine(line: string, y: int, m: nat, k: List, c: Cell<TargetType>)
    requires m <= |line|
  {
    c.pos.y == y && 0 <= c.pos.x < m && Push(k, line[c.pos.x]) == Wrappers.Some((c.color, c.tag))
  }

  lemma {:induction false} ScanRowMembers(l: Level, line: string, y: int, m: nat, k: List)
    requires m <= |line|
    ensures forall c :: c in Get(ScanRow(l, line, y, m), k) <==> c in Get(l, k) || FromLine(line, y, m, k, c)
  {
    if m > 0 {
      ScanRowMembers(l, line, y, m - 1, k);
      var prev := ScanRow(l, line, y, m - 1);
      assert Get(ScanRow(l, line, y, m), k) == Get(prev, k) + Emit(k, line[m - 1], m - 1, y);
    }
  }

  /** The lists hold exactly the cells the text asks for. */
  lemma {:induction false} ScanRowsMembers(lines: seq<string>, n: nat, k: List)
    requires n <= |lines|
    ensures forall c :: c in Get(ScanRows(lines, n), k) <==> FromText(lines, n, k, c)
  {
    if n > 0 {
      ScanRowsMembers(lines, n - 1, k);
      ScanRowMembers(ScanRows(lines, n - 1), lines[n - 1], n - 1, |lines[n - 1]|, k);
    }
  }

  /** Some `@` or `+` occurs among the first n lines. */
  predicate HasMan(lines: seq<string>, n: nat)
    requires n <= |lines|
  {
    exists y, x | 0 <= y < n && 0 <= x < |lines[y]| :: lines[y][x] == '@' || lines[y][x] == '+'
  }

  lemma {:induction false} ScanRowPlayer(l: Level, line: string, y: int, m: nat)
    requires m <= |line|
    ensures var p := ScanRow(l, line, y, m).player;
            (exists x | 0 <= x < m :: line[x] == '@' || line[x] == '+') ==>
              p.color == CssRed && p.tag == Man && p.pos.y == y && 0 <= p.pos.x < m &&
              (line[p.pos.x] == '@' || line[p.pos.x] == '+')
    ensures (forall x | 0 <= x < m :: line[x] != '@' && line[x] != '+') ==> ScanRow(l, line, y, m).player == l.player
  {
    if m > 0 {
      ScanRowPlayer(l, line, y, m - 1);
    }
  }

  /**
   * The player is the red `Man` cell on an `@` or `+` when there is one, and
   * the default cell otherwise.
   */
  lemma {:induction false} ScanRowsPlayer(lines: seq<string>, n: nat)
    requires n <= |lines|
    ensures var p := ScanRows(lines, n).player;
            if HasMan(lines, n) then
              p.color == CssRed && p.tag == Man && 0 <= p.pos.y < n && 0 <= p.pos.x < |lines[p.pos.y]| &&
              (lines[p.pos.y][p.pos.x] == '@' || lines[p.pos.y][p.pos.x] == '+')
            else p == DefaultCell
  {
    if n > 0 {
      ScanRowsPlayer(lines, n - 1);
      var line := lines[n - 1];
      ScanRowPlayer(ScanRows(lines, n - 1), line, n - 1, |line|);
      if exists x | 0 <= x < |line| :: line[x] == '@' || line[x] == '+' {
        var x :| 0 <= x < |line| && (line[x] == '@' || line[x] == '+');
        assert lines[n - 1][x] == line[x];
      } else if HasMan(lines, n) {
        var y, x :| 0 <= y < n && 0 <= x < |lines[y]| && (lines[y][x] == '@' || lines[y][x] == '+');
        assert y < n - 1;
        assert HasMan(lines, n - 1);
      }
    }
  }

  predicate NonNegative(cells: seq<Cell<TargetType>>)
  {
    forall i | 0 <= i < |cells| :: 0 <= cells[i].pos.x && 0 <= cells[i].pos.y
  }

  /** 1 + the largest coordinate along one axis, or 0 for no cells (`max_by(..).map_or(0, ..)`). */
  function Extent(cells: seq<Cell<TargetType>>, alongY: bool): (r: nat)
    requires NonNegative(cells)
    ensures forall i | 0 <= i < |cells| :: (if alongY then cells[i].pos.y else cells[i].pos.x) < r
    ensures cells == [] <==> r == 0
    ensures cells != [] ==> exists i | 0 <= i < |cells| :: (if alongY then cells[i].pos.y else cells[i].pos.x) == r - 1
  {
    if cells == [] then 0
    else
      var v := if alongY then cells[0].pos.y else cells[0].pos.x;
      var rest := Extent(cells[1..], alongY);
      if v + 1 >= rest then v + 1
      else
        assert exists i | 0 <= i < |cells| :: (if alongY then cells[i].pos.y else cells[i].pos.x) == rest - 1 by {
          var i :| 0 <= i < |cells[1..]| && (if alongY then cells[1..][i].pos.y else cells[1..][i].pos.x) == rest - 1;
          assert cells[1..][i] == cells[i + 1];
        }
        rest
  }

  /** Parsed map cells have non-negative coordinates. */
  lemma DataNonNegative(lines: seq<string>)
    ensures NonNegative(ScanRows(lines, |lines|).data)
  {
    var l := ScanRows(lines, |lines|);
    ScanRowsMembers(lines, |lines|, MapData);
    forall i | 0 <= i < |l.data| ensures 0 <= l.data[i].pos.x && 0 <= l.data[i].pos.y {
      assert l.data[i] in Get(l, MapData);
    }
  }

  /** The level `from_xsb` returns: the scanned lists plus the map size. */
  datatype Parsed = Parsed(board: Map<TargetType>, player: Cell<TargetType>,
                           boxes: seq<Cell<TargetType>>, goals: seq<Cell<TargetType>>)

  function XsbLines(xsb: string): seq<string>
  {
    Lines(Trim(xsb))
  }

  function ParseXsb(xsb: string): (p: Parsed)
  {
    var lines := XsbLines(xsb);
    var l := ScanRows(lines, |lines|);
    DataNonNegative(lines);
    Parsed(Map(Extent(l.data, false), Extent(l.data, true), l.data), l.player, l.boxes, l.goals)
  }

  /**
   * What `from_xsb` promises for the lists: walls and `.` goals in the map,
   * `$`/`*` boxes, `.`/`*`/`+` goals, each at its character's position.
   */
  lemma ParseXsbLists(xsb: string)
    ensures var lines, p := XsbLines(xsb), ParseXsb(xsb);
            (forall c :: c in p.board.data <==> FromText(lines, |lines|, MapData, c)) &&
            (forall c :: c in p.boxes <==> FromText(lines, |lines|, Boxes, c)) &&
            (forall c :: c in p.goals <==> FromText(lines, |lines|, Goals, c))
  {
    var lines := XsbLines(xsb);
    ScanRowsMembers(lines, |lines|, MapData);
    ScanRowsMembers(lines, |lines|, Boxes);
    ScanRowsMembers(lines, |lines|, Goals);
  }

  /** The map is exactly as wide and as tall as its cells reach, and empty only when it has no cells. */
  lemma ParseXsbSize(xsb: string)
    ensures var p := ParseXsb(xsb);
            (forall i | 0 <= i < |p.board.data| ::
               p.board.data[i].pos.x < p.board.width && p.board.data[i].pos.y < p.board.height) &&
            (p.board.data == [] <==> p.board.width == 0) &&
            (p.board.data == [] <==> p.board.height == 0) &&
            (p.board.data != [] ==>
               (exists i | 0 <= i < |p.board.data| :: p.board.data[i].pos.x == p.board.width - 1) &&
               (exists i | 0 <= i < |p.board.data| :: p.board.data[i].pos.y == p.board.height - 1))
  {
  }

  /** The player is the red `Man` on an `@` or `+` when the text has one, else the default cell. */
  lemma ParseXsbPlayer(xsb: string)
    ensures var lines, p := XsbLines(xsb), ParseXsb(xsb);
            if HasMan(lines, |lines|) then
              p.player.tag == Man && p.player.color == CssRed &&
              0 <= p.player.pos.y < |lines| && 0 <= p.player.pos.x < |lines[p.player.pos.y]| &&
              (lines[p.player.pos.y][p.player.pos.x] == '@' || lines[p.player.pos.y][p.player.pos.x] == '+')
            else p.player == DefaultCell
  {
    var lines := XsbLines(xsb);
    ScanRowsPlayer(lines, |lines|);
  }

  /** The inner loop of `from_xsb`: one line's characters, left to right. */
  method ScanLine(l: Level, line: string, y: int) returns (r: Level)
    ensures r == ScanRow(l, line, y, |line|)
  {
    var data, player, boxes, goals := l.data, l.player, l.boxes, l.goals;
    for x := 0 to |line|
      invariant Level(data, player, boxes, goals) == ScanRow(l, line, y, x)
    {
      var c := line[x];
      if c == '@' {
        player := Cell(Point(x, y), CssRed, Man);
      } else if c == '+' {
        player := Cell(Point(x, y), CssRed, Man);
        goals := goals + [Cell(Point(x, y), CssGreen, Goal)];
      } else if c == '$' {
        boxes := boxes + [Cell(Point(x, y), CssBlue, Box)];
      } else if c == '*' {
        boxes := boxes + [Cell(Point(x, y), CssBlue, Box)];
        goals := goals + [Cell(Point(x, y), CssGreen, Goal)];
      } else if c == '#' {
        data := data + [Cell(Point(x, y), CssWhite, Wall)];
      } else if c == '.' {
        goals := goals + [Cell(Point(x, y), CssGreen, Goal)];
        data := data + [Cell(Point(x, y), CssGreen, Goal)];
      }
    }
    r := Level(data, player, boxes, goals);
  }

  /** `from_xsb`: scan the trimmed lines, then size the map by its cells. */
  method FromXsb(xsb: string) returns (p: Parsed)
    ensures p == ParseXsb(xsb)
  {
    var lines := Lines(Trim(xsb));
    var l := EmptyLevel;
    for y := 0 to |lines|
      invariant l == ScanRows(lines, y)
    {
      l := ScanLine(l, lines[y], y);
    }
    DataNonNegative(lines);
    p := Parsed(Map(Extent(l.data, false), Extent(l.data, true), l.data), l.player, l.boxes, l.goals);
  }

  // ------------------------------------------------------------ moves

  /** A cell tagged `t` of the list is at p. */
  predicate TaggedAt(cells: seq<Cell<TargetType>>, t: TargetType, p: Point)
  {
    exists i | 0 <= i < |cells| :: cells[i].tag == t && cells[i].pos == p
  }

  /** `hit_wall` for the next position: on or outside the border ring, or on a `Wall` cell. */
  predicate HitWall(board: Map<TargetType>, p: Point)
  {
    p.x <= 0 || p.y <= 0 || p.x >= board.width - 1 || p.y >= board.height - 1 ||
    TaggedAt(board.data, Wall, p)
  }

  /** Goal cells in the map never block the player. */
  lemma GoalsDoNotBlock(board: Map<TargetType>, p: Point)
    requires 0 < p.x < board.width - 1 && 0 < p.y < board.height - 1
    requires forall i | 0 <= i < |board.data| && board.data[i].pos == p :: board.data[i].tag == Goal
    ensures !HitWall(board, p)
  {
  }

  /** The push at `next` towards d is refused: a box is there and a box or wall is beyond it. */
  predicate Refused(boxes: seq<Cell<TargetType>>, board: Map<TargetType>, next: Point, d: Direction)
  {
    TaggedAt(boxes, Box, next) &&
    (TaggedAt(boxes, Box, Step(next, d)) || TaggedAt(board.data, Wall, Step(next, d)))
  }

  /** A single list entry after an accepted push: a box at `next` moves one step. */
  function Pushed(c: Cell<TargetType>, next: Point, d: Direction): Cell<TargetType>
  {
    if c.tag == Box && c.pos == next then c.(pos := Step(c.pos, d)) else c
  }

  /** The box list after an accepted push. */
  function PushAll(boxes: seq<Cell<TargetType>>, next: Point, d: Direction): (r: seq<Cell<TargetType>>)
    ensures |r| == |boxes|
    ensures forall i | 0 <= i < |boxes| :: r[i] == Pushed(boxes[i], next, d)
  {
    seq(|boxes|, i requires 0 <= i < |boxes| => Pushed(boxes[i], next, d))
  }

  /**
   * An accepted push moves only boxes that were at `next`, each by exactly
   * one step towards d, keeps colour and tag, and never onto a wall;
   * without a box at `next` nothing moves.
   */
  lemma PushMovesOnlyTheBoxAhead(boxes: seq<Cell<TargetType>>, board: Map<TargetType>, next: Point, d: Direction)
    requires !Refused(boxes, board, next, d)
    ensures var r := PushAll(boxes, next, d);
            forall i | 0 <= i < |boxes| ::
              r[i].color == boxes[i].color && r[i].tag == boxes[i].tag &&
              (r[i] == boxes[i] || (boxes[i].pos == next && r[i].pos == Step(next, d) &&
                                    !TaggedAt(board.data, Wall, r[i].pos)))
    ensures !TaggedAt(boxes, Box, next) ==> PushAll(boxes, next, d) == boxes
  {
    var r := PushAll(boxes, next, d);
    forall i | 0 <= i < |boxes| && r[i] != boxes[i]
      ensures !TaggedAt(board.data, Wall, r[i].pos)
    {
      assert boxes[i].tag == Box && boxes[i].pos == next;
      assert TaggedAt(boxes, Box, next);
    }
  }

  lemma PushNoneMovesNothing(boxes: seq<Cell<TargetType>>, next: Point)
    ensures PushAll(boxes, next, None) == boxes
  {
  }

  /** Some cell of the list is at p (`goals.contains(&p)`). */
  predicate AnyAt(cells: seq<Cell<TargetType>>, p: Point)
  {
    exists j | 0 <= j < |cells| :: cells[j].pos == p
  }

  /** `game_over`: every box position is a goal position. */
  predicate AllOnGoals(boxes: seq<Cell<TargetType>>, goals: seq<Cell<TargetType>>)
  {
    forall i | 0 <= i < |boxes| :: AnyAt(goals, boxes[i].pos)
  }

  function Positions(cells: seq<Cell<TargetType>>): (s: set<Point>)
    ensures forall i | 0 <= i < |cells| :: cells[i].pos in s
    ensures forall p | p in s :: exists i | 0 <= i < |cells| :: cells[i].pos == p
  {
    set i | 0 <= i < |cells| :: cells[i].pos
  }

  /** The win test as sets: the box positions are among the goal positions. */
  lemma AllOnGoalsAsSets(boxes: seq<Cell<TargetType>>, goals: seq<Cell<TargetType>>)
    ensures AllOnGoals(boxes, goals) <==> Positions(boxes) <= Positions(goals)
  {
    var pb, pg := Positions(boxes), Positions(goals);
    if AllOnGoals(boxes, goals) {
      forall p | p in pb ensures p in pg {
        var i :| 0 <= i < |boxes| && boxes[i].pos == p;
        var j :| 0 <= j < |goals| && goals[j].pos == boxes[i].pos;
      }
    }
    if pb <= pg {
      forall i | 0 <= i < |boxes| ensures AnyAt(goals, boxes[i].pos) {
        assert boxes[i].pos in pb;
        assert boxes[i].pos in pg;
        var j :| 0 <= j < |goals| && goals[j].pos == boxes[i].pos;
      }
      assert AllOnGoals(boxes, goals);
    }
  }

  /** `SokobanMap`: the map, the player's start, the boxes (which move) and the goals. */
  class SokobanMap {
    const board: Map<TargetType>
    const player: Cell<TargetType>
    var boxes: seq<Cell<TargetType>>
    const goals: seq<Cell<TargetType>>

    constructor (p: Parsed)
      ensures board == p.board && player == p.player && boxes == p.boxes && goals == p.goals
    {
      board := p.board;
      player := p.player;
      boxes := p.boxes;
      goals := p.goals;
    }
  }

  /** The level `Sokoban::new` loads. */
  const BuiltInLevel: string :=
    "\n########\n#--#---#\n#-$----#\n#--*.*-#\n#-$@*--#\n###$*--#\n-#--*--#\n-#-#.--#\n-#--.--#\n-#######\n"

  class Game {
    const world: SokobanMap
    const man: Player
    const vision: Vision<TargetType>
    var waitingTime: nat
    var gameOver: bool

    /** The vision holds exactly the map cells of its window. */
    ghost predicate Valid()
      reads this, vision
    {
      vision.data == Window(world.board, vision.pos)
    }

    /** `Sokoban::new` for a level text: the player on the level's start, the vision filled around it. */
    constructor (xsb: string)
      ensures fresh(world) && fresh(man) && fresh(vision)
      ensures world.board == ParseXsb(xsb).board && world.boxes == ParseXsb(xsb).boxes &&
              world.goals == ParseXsb(xsb).goals
      ensures man.pos == ParseXsb(xsb).player.pos && man.color == CssRed
      ensures Valid()
      ensures waitingTime == 300 && !gameOver
    {
      var p := FromXsb(xsb);
      var m := new SokobanMap(p);
      world := m;
      man := new Player(p.player.pos);
      var v := new Vision<TargetType>(p.board.width, p.board.height, p.player.pos);
      v.UpdateData(p.board);
      vision := v;
      waitingTime := 300;
      gameOver := false;
    }

    /**
     * `push_box`: each box at the next position moves one step unless a box
     * (in the list as it was before the loop) or a wall is beyond it, in
     * which case nothing moves and the result is false.
     */
    method PushBox(d: Direction) returns (can: bool)
      modifies world
      ensures can == !Refused(old(world.boxes), world.board, Step(man.pos, d), d)
      ensures world.boxes == if can then PushAll(old(world.boxes), Step(man.pos, d), d) else old(world.boxes)
    {
      var next := man.NextPos(d);
      var snapshot := world.boxes;
      var i := 0;
      while i < |world.boxes|
        invariant 0 <= i <= |world.boxes| == |snapshot|
        invariant forall j | 0 <= j < i :: world.boxes[j] == Pushed(snapshot[j], next, d)
        invariant forall j | i <= j < |snapshot| :: world.boxes[j] == snapshot[j]
        invariant (exists j | 0 <= j < i :: snapshot[j].tag == Box && snapshot[j].pos == next) ==>
                    !Refused(snapshot, world.board, next, d)
      {
        var c := world.boxes[i];
        if c.tag == Box && c.pos == next {
          var boxp := Step(c.pos, d);
          var isBox := TaggedAt(snapshot, Box, boxp);
          var isWall := TaggedAt(world.board.data, Wall, boxp);
          if isBox || isWall {
            assert Refused(snapshot, world.board, next, d);
            assert world.boxes == snapshot;
            return false;
          }
          world.boxes := world.boxes[i := c.(pos := boxp)];
        }
        i := i + 1;
      }
      assert world.boxes == PushAll(snapshot, next, d);
      can := true;
    }

    /** `game_over`: the game is over exactly when every box is on a goal. */
    method GameOver()
      modifies this
      ensures gameOver == AllOnGoals(world.boxes, world.goals)
      ensures waitingTime == old(waitingTime)
    {
      gameOver := AllOnGoals(world.boxes, world.goals);
    }

    /**
     * One tick of `run` after the tilt is read: unless the next position is
     * a wall, try the push, move the player only if it was accepted, then
     * (even after a refused push) update the vision and the win flag.
     */
    method Tick(d: Direction) returns (finished: bool)
      requires Valid()
      modifies this, world, man, vision
      ensures Valid()
      ensures finished == old(gameOver)
      ensures old(gameOver) ==>
                man.pos == old(man.pos) && world.boxes == old(world.boxes) &&
                vision.pos == old(vision.pos) && vision.data == old(vision.data) && gameOver
      ensures !old(gameOver) && HitWall(world.board, Step(old(man.pos), d)) ==>
                man.pos == old(man.pos) && world.boxes == old(world.boxes) &&
                vision.pos == old(vision.pos) && vision.data == old(vision.data) && !gameOver
      ensures !old(gameOver) && !HitWall(world.board, Step(old(man.pos), d)) ==>
                var next := Step(old(man.pos), d);
                var ok := !Refused(old(world.boxes), world.board, next, d);
                man.pos == (if ok then next else old(man.pos)) &&
                world.boxes == (if ok then PushAll(old(world.boxes), next, d) else old(world.boxes)) &&
                vision.pos == (if Accepts(world.board.width, world.board.height, Step(old(vision.pos), d))
                               then Step(old(vision.pos), d) else old(vision.pos)) &&
                gameOver == AllOnGoals(world.boxes, world.goals)
    {
      if gameOver {
        return true;
      }
      finished := false;
      var next := man.NextPos(d);
      var hit := next.x <= 0 || next.y <= 0 || next.x >= world.board.width - 1 ||
                 next.y >= world.board.height - 1 || TaggedAt(world.board.data, Wall, next);
      if !hit {
        var can := PushBox(d);
        if can {
          var _ := man.Move(d);
        }
        vision.Update(d, world.board);
        GameOver();
      }
    }
  }
}
