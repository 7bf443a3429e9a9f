/**
 * `cube/src/lib.rs`: the cube's own direction types, the menu the tilts
 * move through, and the side length chosen for a new maze.
 */
module CubeApp {
  import Common
  import Wrappers
  import CubeRand
  import opened Screens

  /** The acceleration direction: the five-way tilt plus the two vertical ones. */
  datatype Ad = None | Front | Right | Back | Left | Up | Down

  /** `From<Direction> for Ad`; the source's `Direction` has no `None`. */
  function FromDirection(d: Common.Direction): (a: Ad)
    requires d != Common.None
    ensures a in {Front, Right, Back, Left}
  {
    match d
    case Up => Front
    case Right => Right
    case Down => Back
    case Left => Left
  }

  /** The conversion loses nothing: different directions give different `Ad`s. */
  lemma FromDirectionInjective(d: Common.Direction, e: Common.Direction)
    requires d != Common.None && e != Common.None
    ensures FromDirection(d) == FromDirection(e) <==> d == e
  {
  }

  /** `Display for Ad`. */
  function Name(a: Ad): (s: string)
    ensures a == Front ==> s == "Up"
    ensures a == Back ==> s == "Down"
    ensures a == None ==> s == "None"
  {
    match a
    case None => "None"
    case Front => "Up"
    case Right => "Right"
    case Back => "Down"
    case Left => "Left"
    case Up => "Up"
    case Down => "Down"
  }

  /** The printed name is ambiguous: a forward tilt reads like an upward one. */
  lemma NameConflates(a: Ad, b: Ad)
    ensures Name(a) == Name(b) <==> a == b || {a, b} == {Front, Up} || {a, b} == {Back, Down}
  {
  }

  /** `quit`: a game ends when the cube is turned upside down. */
  predicate Quit(a: Ad)
  {
    a == Down
  }

  /** `App`: the menu state the main loop keeps between tilts. */
  class App {
    const uis: seq<Ui>
    /** An `i8` in the source; it never leaves `[0, 9)`, far inside that type. */
    var uiCurrentIdx: int

    ghost predicate Valid()
      reads this
    {
      uis == Uis() && 0 <= uiCurrentIdx < |uis|
    }

    /** `App::new`: the menu starts on its first screen. */
    constructor ()
      ensures Valid() && uiCurrentIdx == 0
    {
      uis := Uis();
      uiCurrentIdx := 0;
    }

    /**
     * One menu round of `run` for the tilt `a`: Right moves to the next
     * screen and Left to the previous one, each wrapping round the ends;
     * Front opens the current screen; the screen shown afterwards is the
     * current one.
     */
    method Tilt(a: Ad) returns (shown: Ui, entered: Wrappers.Option<Ui>)
      requires Valid()
      modifies this
      ensures Valid()
      ensures a == Right ==> uiCurrentIdx == (old(uiCurrentIdx) + 1) % |uis|
      ensures a == Left ==> uiCurrentIdx == (old(uiCurrentIdx) - 1) % |uis|
      ensures a != Right && a != Left ==> uiCurrentIdx == old(uiCurrentIdx)
      ensures entered.Some? <==> a == Front
      ensures entered.Some? ==> entered.value == uis[uiCurrentIdx]
      ensures shown == uis[uiCurrentIdx]
    {
      entered := Wrappers.None;
      match a {
        case Front =>
          entered := Wrappers.Some(uis[uiCurrentIdx]);
        case Right =>
          uiCurrentIdx := uiCurrentIdx + 1;
          if uiCurrentIdx >= |uis| {
            uiCurrentIdx := 0;
          }
        case Left =>
          uiCurrentIdx := uiCurrentIdx - 1;
          if uiCurrentIdx < 0 {
            uiCurrentIdx := |uis| - 1;
          }
        case _ =>
      }
      shown := uis[uiCurrentIdx];
    }
  }

  /** The index after a Right tilt, as `run` computes it. */
  function NextIndex(i: int, len: int): (r: int)
    requires 0 <= i < len
    ensures 0 <= r < len && r == (i + 1) % len
  {
    if i + 1 >= len then 0 else i + 1
  }

  /** The index after a Left tilt, as `run` computes it. */
  function PrevIndex(i: int, len: int): (r: int)
    requires 0 <= i < len
    ensures 0 <= r < len && r == (i - 1) % len
  {
    if i - 1 < 0 then len - 1 else i - 1
  }

  /** A Left tilt undoes a Right tilt and the other way round. */
  lemma TiltsUndo(i: int, len: int)
    requires 0 <= i < len
    ensures PrevIndex(NextIndex(i, len), len) == i
    ensures NextIndex(PrevIndex(i, len), len) == i
  {
  }

  // ------------------------------------------------------------ maze side

  /**
   * The side of a new maze once the draw `u` is known:
   * `random_range(19..=33)`, then bumped to the next odd number.
   */
  function MazeSideFromDraw(u: CubeRand.U32): (side: nat)
    ensures side % 2 == 1 && 19 <= side <= 33
  {
    CubeRand.InclusiveRange(19, 33, u);
    var cr := CubeRand.RangeFromDraw(CubeRand.Included(19), CubeRand.Included(33), u).v;
    if cr % 2 == 0 then cr + 1 else cr
  }

  /** The side chosen from the hardware random word `seed`. */
  function MazeSide(seed: CubeRand.U64): (side: nat)
    ensures side % 2 == 1 && 19 <= side <= 33
  {
    MazeSideFromDraw(CubeRand.Lcg(seed) % CubeRand.Two32)
  }

  /**
   * Every odd side from 19 to 33 can come out, even though the draw never
   * returns 33: 33 is reached from 32.
   */
  lemma MazeSideCovers(side: nat)
    requires side % 2 == 1 && 19 <= side <= 33
    ensures side < 33 ==> MazeSideFromDraw(side - 19) == side
    ensures side > 19 ==> MazeSideFromDraw(side - 20) == side
  {
    if side < 33 {
      CubeRand.InclusiveRange(19, 33, side - 19);
      CubeRand.ModSmall(side - 19, 14);
    }
    if side > 19 {
      CubeRand.InclusiveRange(19, 33, side - 20);
      CubeRand.ModSmall(side - 20, 14);
    }
  }
}
