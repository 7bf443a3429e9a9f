/**
 * `cube/src/dodge_cube.rs`: the dodge-the-cubes game, of which only the
 * board, the player and the score bookkeeping exist; its move step is empty.
 */
module DodgeCube {
  import opened Common
  import opened Players
  import CubeRand

  class DodgeCubeGame {
    const width: int
    const height: int
    const player: Player
    var waitingTime: nat
    var score: CubeRand.U8
    var highest: CubeRand.U8
    var gameOver: bool

    /** `DodgeCubeGame::new()`: an 8x8 board, the player at (3, 7), nothing scored yet. */
    constructor ()
      ensures width == 8 && height == 8
      ensures player.pos == Point(3, 7) && player.color == CssRed && fresh(player)
      ensures waitingTime == 600 && score == 0 && highest == 0 && !gameOver
    {
      width, height := 8, 8;
      player := new Player(Point(3, 7));
      waitingTime := 600;
      score, highest := 0, 0;
      gameOver := false;
    }

    /** `outside`: off the board on some side. */
    predicate Outside(p: Point)
      reads this
    {
      p.x < 0 || p.y < 0 || p.x >= width || p.y >= height
    }

    /** On the 8x8 board `outside` is exactly "not on the screen". */
    lemma OutsideIsOffScreen(p: Point)
      requires width == 8 && height == 8
      ensures Outside(p) <==> !(0 <= p.x < 8 && 0 <= p.y < 8)
    {
    }

    /** `move`: its body is empty, so a tilt changes nothing. */
    method Move(d: Direction)
    {
    }

    /** `calc_score`: one more point, wrapping round as a `u8` does in a release build. */
    method CalcScore()
      modifies this
      ensures score == (old(score) + 1) % 256
      ensures old(score) < 255 ==> score == old(score) + 1
      ensures highest == old(highest) && gameOver == old(gameOver) && waitingTime == old(waitingTime)
    {
      score := (score + 1) % 256;
    }

    /**
     * One round of `run`: when the game is over the best score is raised
     * if beaten and the game ends; otherwise the (empty) move is made.
     */
    method Tick(d: Direction) returns (finished: bool)
      modifies this
      ensures finished == old(gameOver)
      ensures finished ==> highest == if old(score) > old(highest) then old(score) else old(highest)
      ensures !finished ==> highest == old(highest)
      ensures score == old(score) && gameOver == old(gameOver) && player.pos == old(player.pos)
    {
      if gameOver {
        if score > highest {
          highest := score;
        }
        return true;
      }
      Move(d);
      return false;
    }
  }
}
