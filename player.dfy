/** `cube/src/player.rs`: the red pixel the map games move around. */
module Players {
  import opened Common

  class Player {
    var pos: Point
    var color: Rgb

    /** `Player::new`: at `pos`, coloured red. */
    constructor (pos: Point)
      ensures this.pos == pos && color == CssRed
    {
      this.pos := pos;
      color := CssRed;
    }

    /** `next_pos`: one step towards `d`; the player itself does not move. */
    function NextPos(d: Direction): (r: Point)
      reads this
      ensures r == Step(pos, d)
      ensures r == pos <==> d == None
    {
      match d
      case None => pos
      case Up => pos.(y := pos.y - 1)
      case Right => pos.(x := pos.x + 1)
      case Down => pos.(y := pos.y + 1)
      case Left => pos.(x := pos.x - 1)
    }

    /** `move`: take the step; the result says whether a direction was given. */
    method Move(d: Direction) returns (moved: bool)
      modifies this
      ensures pos == Step(old(pos), d) && color == old(color)
      ensures moved == (d != None)
      ensures !moved <==> pos == old(pos)
    {
      pos := NextPos(d);
      moved := d != None;
    }
  }
}
