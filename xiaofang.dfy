/**
 * `src/lib.rs`: the first cube's shared types and its menu loop.  A
 * `Position` holds two `i8` coordinates, origin top left; moving it one
 * step wraps round as a release build does.  The menu keeps an index into
 * eight screens and moves it when the cube is tilted right or left.
 */
module Xiaofang {
  import opened Common
  import Wrappers

  type I8 = v: int | -128 <= v < 128

  /** `i8` arithmetic as a release build does it. */
  function WrapI8(v: int): (r: I8)
    ensures -128 <= v < 128 ==> r == v
    ensures (r - v) % 256 == 0
  {
    (v + 128) % 256 - 128
  }

  /** The four-way `Direction`: every direction but `None`. */
  type Heading = d: Direction | d != None witness Up

  /** `Direction::opposite`, which never yields `None`. */
  function OppositeHeading(d: Heading): (r: Heading)
    ensures r != d && Opposite(r) == d
  {
    Opposite(d)
  }

  /** A `Position` as a value. */
  datatype Pos = Pos(x: I8, y: I8)

  /** `Position::next(d)`: one step in direction `d`, with `i8` wrap-around. */
  function Next(p: Pos, d: Heading): (q: Pos)
    ensures d == Up || d == Down ==> q.x == p.x && (q.y - p.y) % 256 == (if d == Up then 255 else 1)
    ensures d == Left || d == Right ==> q.y == p.y && (q.x - p.x) % 256 == (if d == Left then 255 else 1)
  {
    match d
    case Up => p.(y := WrapI8(p.y - 1))
    case Right => p.(x := WrapI8(p.x + 1))
    case Down => p.(y := WrapI8(p.y + 1))
    case Left => p.(x := WrapI8(p.x - 1))
  }

  /** Away from the `i8` ends, `next` is the plain one-unit step every game uses. */
  lemma NextIsStep(p: Pos, d: Heading)
    requires -128 < p.x < 127 && -128 < p.y < 127
    ensures Point(Next(p, d).x, Next(p, d).y) == Step(Point(p.x, p.y), d)
  {
  }

  /** A step followed by a step the opposite way returns to the start, even across the wrap. */
  lemma NextOpposite(p: Pos, d: Heading)
    ensures Next(Next(p, d), OppositeHeading(d)) == p
  {
    match d
    case Up => WrapBack(p.y);
    case Down => WrapBack(p.y);
    case Right => WrapBack(p.x);
    case Left => WrapBack(p.x);
  }

  /** One up and one down in `i8`, in either order, cancel out. */
  lemma WrapBack(v: I8)
    ensures WrapI8(WrapI8(v + 1) - 1) == v && WrapI8(WrapI8(v - 1) + 1) == v
  {
    if v == 127 {
      assert WrapI8(v + 1) == -128;
    } else if v == -128 {
      assert WrapI8(v - 1) == 127;
    }
  }

  /** A step always leaves the position, in every direction. */
  lemma NextMoves(p: Pos, d: Heading)
    ensures Next(p, d) != p
  {
  }

  /** `Position` as an object that `move` updates. */
  class Position {
    var x: I8
    var y: I8

    function Value(): (p: Pos)
      reads this
    {
      Pos(x, y)
    }

    /** `Position::new(x, y)`. */
    constructor (x: I8, y: I8)
      ensures Value() == Pos(x, y)
    {
      this.x := x;
      this.y := y;
    }

    /** `move(d)`: the position moves to where `next(d)` points. */
    method Move(d: Heading)
      modifies this
      ensures Value() == Next(old(Value()), d)
    {
      match d {
        case Up => y := WrapI8(y - 1);
        case Right => x := WrapI8(x + 1);
        case Down => y := WrapI8(y + 1);
        case Left => x := WrapI8(x - 1);
      }
    }
  }

  /** The screens of the menu. */
  datatype Ui = Timer | Dice | Snake | BaGua | Maze | Temp | Sound | Version

  /** The menu of `App`: eight screens and the index of the one shown. */
  class App {
    /** `uis: [Ui; 8]`; their order comes from `Ui::uis()`, which is not part of this model. */
    const uis: seq<Ui>
    /** `ui_current_idx: i8`. */
    var uiCurrentIdx: I8

    ghost predicate Valid()
      reads this
    {
      |uis| == 8 && 0 <= uiCurrentIdx < 8
    }

    /** `App::new`: the menu starts on its first screen. */
    constructor (uis: seq<Ui>)
      requires |uis| == 8
      ensures Valid() && this.uis == uis && uiCurrentIdx == 0
    {
      this.uis := uis;
      uiCurrentIdx := 0;
    }

    /**
     * One round of `run` once the tilt `gd` is known: Right and Left move
     * to the next and previous screen, wrapping round the ends; Up enters
     * the current screen; the screen uploaded is the current one, except
     * that Up and Down upload nothing.
     */
    method Tilt(gd: Direction) returns (shown: Wrappers.Option<Ui>, entered: Wrappers.Option<Ui>)
      requires Valid()
      modifies this
      ensures Valid()
      ensures gd == Right ==> uiCurrentIdx == (old(uiCurrentIdx) + 1) % 8
      ensures gd == Left ==> uiCurrentIdx == (old(uiCurrentIdx) - 1) % 8
      ensures gd != Right && gd != Left ==> uiCurrentIdx == old(uiCurrentIdx)
      ensures entered == (if gd == Up then Wrappers.Some(uis[uiCurrentIdx]) else Wrappers.None)
      ensures shown == (if gd == Up || gd == Down then Wrappers.None else Wrappers.Some(uis[uiCurrentIdx]))
    {
      shown, entered := Wrappers.None, Wrappers.None;
      if gd == None {
        shown := Wrappers.Some(uis[uiCurrentIdx]);
        return;
      }
      match gd {
        case Up =>
          entered := Wrappers.Some(uis[uiCurrentIdx]);
        case Right =>
          uiCurrentIdx := uiCurrentIdx + 1;
          if uiCurrentIdx >= |uis| {
            uiCurrentIdx := 0;
          }
          shown := Wrappers.Some(uis[uiCurrentIdx]);
        case Left =>
          uiCurrentIdx := uiCurrentIdx - 1;
          if uiCurrentIdx < 0 {
            uiCurrentIdx := |uis| - 1;
          }
          shown := Wrappers.Some(uis[uiCurrentIdx]);
        case _ =>
      }
    }
  }

  /** A right tilt followed by a left tilt, or the other way round, leaves the menu where it was. */
  method TiltsUndo(app: App, first: Direction)
    requires app.Valid() && (first == Right || first == Left)
    modifies app
    ensures app.Valid() && app.uiCurrentIdx == old(app.uiCurrentIdx)
  {
    var s1, e1 := app.Tilt(first);
    var s2, e2 := app.Tilt(OppositeHeading(first));
  }
}
