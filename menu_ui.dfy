/** `cube/src/ui.rs`: the screens of the cube's menu and their 8x8 icons. */
module Screens {

  datatype Ui = Timer | Dice | Snake | BaGua | Maze | CubeMan | Sokoban | DodgeCube | Sound

  /** `Ui::default()`. */
  const DefaultUi: Ui := Timer

  /** `Ui::uis()`: the menu order. */
  function Uis(): (r: seq<Ui>)
    ensures |r| == 9 && r[0] == DefaultUi
    ensures forall i, j | 0 <= i < j < |r| :: r[i] != r[j]
  {
    [Timer, Dice, Snake, BaGua, Maze, CubeMan, Sokoban, DodgeCube, Sound]
  }

  /** Every screen is on the menu. */
  lemma UisCoverAll(u: Ui)
    ensures u in Uis()
  {
    match u
    case Timer => assert Uis()[0] == u;
    case Dice => assert Uis()[1] == u;
    case Snake => assert Uis()[2] == u;
    case BaGua => assert Uis()[3] == u;
    case Maze => assert Uis()[4] == u;
    case CubeMan => assert Uis()[5] == u;
    case Sokoban => assert Uis()[6] == u;
    case DodgeCube => assert Uis()[7] == u;
    case Sound => assert Uis()[8] == u;
  }

  /** `Ui::ui()`: the icon of each screen, one byte per row, bit 7 leftmost. */
  function Icon(u: Ui): (rows: seq<bv8>)
    ensures |rows| == 8
  {
    match u
    case Maze => [0x00, 0x56, 0x5A, 0x42, 0x3A, 0x22, 0x6E, 0x00]
    case Snake => [0x00, 0x74, 0x40, 0x7E, 0x02, 0x1E, 0x10, 0x00]
    case BaGua => [0x00, 0x66, 0x00, 0x66, 0x00, 0x7E, 0x00, 0x00]
    case Dice => [0x00, 0x66, 0x66, 0x18, 0x18, 0x66, 0x66, 0x00]
    case Timer => [0x00, 0x7E, 0x3C, 0x18, 0x18, 0x3C, 0x7E, 0x00]
    case CubeMan => [0x00, 0x1C, 0x00, 0x0F, 0x00, 0xF0, 0x00, 0x3E]
    case Sokoban => [0x66, 0xBD, 0x81, 0xBD, 0x81, 0xDB, 0x42, 0x7E]
    case DodgeCube => [0xFF, 0xAD, 0xED, 0x8D, 0xAD, 0xBE, 0x00, 0x10]
    case Sound => [0x00, 0x18, 0x0C, 0x0A, 0x18, 0x38, 0x30, 0x00]
  }

  /** Two screens never share an icon, so the icon tells the screen. */
  lemma IconsDistinct(u: Ui, v: Ui)
    ensures Icon(u) == Icon(v) <==> u == v
  {
    if u != v {
      var a, b := Icon(u), Icon(v);
      assert a[1] != b[1] || a[2] != b[2] || a[0] != b[0];
    }
  }
}
