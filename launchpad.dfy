/** The two Launchpad hardware generations and their raw button-id layouts, as
    used by the generative field and both scan/solo testers. Rows `y` count from
    the top of the 8x8 grid, columns `x` from the left. */
module Launchpad {

  datatype Option<+T> = None | Some(value: T)

  /** Mk1 ("Mini"/S) and Mk2 devices number their buttons differently. */
  datatype Gen = Mk1 | Mk2

  /** One raw LED write: the button id and the colour components passed to the
      driver (two on an Mk1, three on an Mk2). */
  datatype LedWrite = LedWrite(id: int, components: seq<int>)

  ghost predicate OnGrid(x: int, y: int)
  {
    0 <= x < 8 && 0 <= y < 8
  }

  /** The raw id of grid cell (x, y): `y*16 + x` on an Mk1, `(7-y)*10 + x + 11` on an Mk2. */
  function GridId(gen: Gen, x: int, y: int): int
  {
    match gen
    case Mk1 => y * 16 + x
    case Mk2 => (7 - y) * 10 + x + 11
  }

  /** Decodes a raw id to a grid cell, or `None` when the id is not a grid pad. */
  function XYFromRaw(gen: Gen, bid: int): Option<(int, int)>
  {
    match gen
    case Mk1 =>
      var x, y := bid % 16, bid / 16;
      if x < 8 && y < 8 then Some((x, y)) else None
    case Mk2 =>
      var r, c := bid / 10, bid % 10;
      if 1 <= r <= 8 && 1 <= c <= 8 then Some((c - 1, 8 - r)) else None
  }

  /** Top-row control button `i` (TOP_BTNS / SOLO_BTNS / VOL_BTNS entries). */
  function TopBtn(gen: Gen, i: int): int
  {
    match gen
    case Mk1 => 200 + i
    case Mk2 => 104 + i
  }

  /** Right-column control button `i`, counted from the top (SIDE_BTNS entries). */
  function SideBtn(gen: Gen, i: int): int
  {
    match gen
    case Mk1 => 8 + 16 * i
    case Mk2 => 89 - 10 * i
  }

  /** Decoding the id of a grid cell gives the cell back. */
  lemma GridIdRoundTrip(gen: Gen, x: int, y: int)
    requires OnGrid(x, y)
    ensures XYFromRaw(gen, GridId(gen, x, y)) == Some((x, y))
  {
    var bid := GridId(gen, x, y);
    match gen
    case Mk1 =>
      assert bid == y * 16 + x;
      assert bid % 16 == x && bid / 16 == y;
    case Mk2 =>
      assert bid == (8 - y) * 10 + (x + 1);
      assert bid / 10 == 8 - y && bid % 10 == x + 1;
  }

  /** Whatever id decodes to a cell is that cell's id, and the cell has a column
      in 0..7 and a row below 8; from a non-negative id (all the hardware
      reports) the row is also at least 0. */
  lemma XYFromRawInverse(gen: Gen, bid: int)
    ensures XYFromRaw(gen, bid).Some? ==>
              var (x, y) := XYFromRaw(gen, bid).value;
              GridId(gen, x, y) == bid && 0 <= x < 8 && y < 8 && (bid >= 0 ==> OnGrid(x, y))
  {
  }

  /** Two different cells never share an id. */
  lemma GridIdInjective(gen: Gen, x: int, y: int, x': int, y': int)
    requires OnGrid(x, y) && OnGrid(x', y')
    requires GridId(gen, x, y) == GridId(gen, x', y')
    ensures x == x' && y == y'
  {
    GridIdRoundTrip(gen, x, y);
    GridIdRoundTrip(gen, x', y');
  }

  /** No top-row or side-column control id is mistaken for a grid pad. */
  lemma ControlsAreNotGrid(gen: Gen, i: int)
    requires 0 <= i < 8
    ensures XYFromRaw(gen, TopBtn(gen, i)) == None
    ensures XYFromRaw(gen, SideBtn(gen, i)) == None
  {
  }
}
