/**
 * Board geometry of `src/game.rs` and the specification of four in a row.
 *
 * The board has WIDTH = 7 columns of HEIGHT = 6 playable cells. In the
 * 64-bit encoding column c owns the MASK_HEIGHT = 7 bits starting at bit
 * 7 * c: its six playable cells from the bottom up, then one sentinel bit.
 * Bits 49 to 63 belong to no column. A set of stones is a 64-bit word with
 * one bit per stone.
 */
module Geometry {

  /** Rust's `u8`. Every use in this model keeps its arithmetic within range. */
  type u8 = bv8

  const HEIGHT: u8 := 6
  const WIDTH: u8 := 7
  const MASK_HEIGHT: u8 := HEIGHT + 1

  /** The bit position of the cell of `column` at `row` (row 0 is the bottom, row HEIGHT the sentinel). */
  function Index(column: u8, row: u8): (i: u8)
    requires column < WIDTH && row < MASK_HEIGHT
  {
    column * MASK_HEIGHT + row
  }

  /** Index numbers the cells column by column, and the column and row can be read back from it. */
  lemma IndexCoordinates(column: u8, row: u8)
    requires column < WIDTH && row < MASK_HEIGHT
    ensures Index(column, row) < 49
    ensures Index(column, row) / MASK_HEIGHT == column && Index(column, row) % MASK_HEIGHT == row
  {
  }

  /**
   * The word holding only the cell of `column` at `row`. It is total so that
   * callers need not prove anything to name a cell; off the columns it is 0.
   */
  function Cell(column: u8, row: u8): bv64 {
    if column < WIDTH && row < MASK_HEIGHT then 1 << Index(column, row) else 0
  }

  /** Every bit set in `x` is set in `y`. */
  predicate Within(x: bv64, y: bv64) {
    x & !y == 0
  }

  /** Bit `i` of `x` is set. */
  predicate Has(x: bv64, i: u8)
    requires i < 64
  {
    (x >> i) & 1 == 1
  }

  /** A stone sits on a cell exactly when the word shares a bit with the cell's word. */
  lemma StoneCell(x: bv64, column: u8, row: u8)
    requires column < WIDTH && row < HEIGHT
    ensures Stone(x, column, row) <==> x & Cell(column, row) != 0
  {
  }

  /** Bits set in a word stay set in every superset of it. */
  lemma HasSubset(x: bv64, y: bv64, i: u8)
    requires i < 64 && Within(x, y) && Has(x, i)
    ensures Has(y, i)
  {
  }

  /** The stone set `pos` holds the cell of `column` at the playable `row`. */
  predicate Stone(pos: bv64, column: u8, row: u8)
    requires column < WIDTH && row < HEIGHT
  {
    Has(pos, Index(column, row))
  }

  /** The 42 bits of the playable grid: every bit except the seven sentinels and bits 49 to 63. */
  const PLAYABLE: bv64 := 0xFDFB_F7EF_DFBF

  /** `pos` holds playable cells only. */
  predicate OnBoard(pos: bv64) {
    pos & !PLAYABLE == 0
  }

  /** PLAYABLE is the set of bits below 49 that are not a sentinel. */
  lemma PlayableCells(i: u8)
    requires i < 64
    ensures Has(PLAYABLE, i) <==> i < 49 && i % 7 < 6
  {
  }

  /** The four directions in which four stones can line up. */
  datatype Direction = Vertical | Horizontal | Diagonal | AntiDiagonal

  /** The shift that moves one cell forward in direction `d`: up, right, up-right, down-right. */
  function Step(d: Direction): u8 {
    match d
    case Vertical => 1
    case Horizontal => MASK_HEIGHT
    case Diagonal => MASK_HEIGHT + 1
    case AntiDiagonal => MASK_HEIGHT - 1
  }

  /**
   * `pos` holds the four cells that start at (`column`, `row`) and go in
   * direction `d`, and all four lie on the grid.
   */
  predicate FourFrom(pos: bv64, column: u8, row: u8, d: Direction)
    requires column < WIDTH && row < HEIGHT
  {
    match d
    case Vertical =>
      row + 3 < HEIGHT &&
      Stone(pos, column, row) && Stone(pos, column, row + 1) &&
      Stone(pos, column, row + 2) && Stone(pos, column, row + 3)
    case Horizontal =>
      column + 3 < WIDTH &&
      Stone(pos, column, row) && Stone(pos, column + 1, row) &&
      Stone(pos, column + 2, row) && Stone(pos, column + 3, row)
    case Diagonal =>
      column + 3 < WIDTH && row + 3 < HEIGHT &&
      Stone(pos, column, row) && Stone(pos, column + 1, row + 1) &&
      Stone(pos, column + 2, row + 2) && Stone(pos, column + 3, row + 3)
    case AntiDiagonal =>
      column + 3 < WIDTH && 3 <= row &&
      Stone(pos, column, row) && Stone(pos, column + 1, row - 1) &&
      Stone(pos, column + 2, row - 2) && Stone(pos, column + 3, row - 3)
  }

  /** Some line of four cells of the grid in direction `d` lies entirely in `pos`. */
  ghost predicate LineIn(pos: bv64, d: Direction) {
    exists column: u8, row: u8 :: column < WIDTH && row < HEIGHT && FourFrom(pos, column, row, d)
  }

  /** Four in a row: some line of four cells of the grid, in any of the four directions, lies entirely in `pos`. */
  ghost predicate HasFour(pos: bv64) {
    LineIn(pos, Vertical) || LineIn(pos, Horizontal) || LineIn(pos, Diagonal) || LineIn(pos, AntiDiagonal)
  }

  /** A stone of `pos` is a stone of every superset of `pos`. */
  lemma StoneWithin(pos: bv64, more: bv64, column: u8, row: u8)
    requires column < WIDTH && row < HEIGHT && Within(pos, more) && Stone(pos, column, row)
    ensures Stone(more, column, row)
  {
    IndexCoordinates(column, row);
    HasSubset(pos, more, Index(column, row));
  }

  /** A line of four stones stays a line when stones are added. */
  lemma FourFromMonotone(pos: bv64, more: bv64, column: u8, row: u8, d: Direction)
    requires column < WIDTH && row < HEIGHT && Within(pos, more) && FourFrom(pos, column, row, d)
    ensures FourFrom(more, column, row, d)
  {
    hide Stone, Within;
    match d
    case Vertical =>
      StoneWithin(pos, more, column, row);
      StoneWithin(pos, more, column, row + 1);
      StoneWithin(pos, more, column, row + 2);
      StoneWithin(pos, more, column, row + 3);
    case Horizontal =>
      StoneWithin(pos, more, column, row);
      StoneWithin(pos, more, column + 1, row);
      StoneWithin(pos, more, column + 2, row);
      StoneWithin(pos, more, column + 3, row);
    case Diagonal =>
      StoneWithin(pos, more, column, row);
      StoneWithin(pos, more, column + 1, row + 1);
      StoneWithin(pos, more, column + 2, row + 2);
      StoneWithin(pos, more, column + 3, row + 3);
    case AntiDiagonal =>
      StoneWithin(pos, more, column, row);
      StoneWithin(pos, more, column + 1, row - 1);
      StoneWithin(pos, more, column + 2, row - 2);
      StoneWithin(pos, more, column + 3, row - 3);
  }

  /** Lines in direction `d` survive adding stones. */
  lemma LineInMonotone(pos: bv64, more: bv64, d: Direction)
    requires Within(pos, more) && LineIn(pos, d)
    ensures LineIn(more, d)
  {
    var column: u8, row: u8 :| column < WIDTH && row < HEIGHT && FourFrom(pos, column, row, d);
    FourFromMonotone(pos, more, column, row, d);
  }

  /** Four in a row survives adding stones. */
  lemma HasFourMonotone(pos: bv64, more: bv64)
    requires Within(pos, more) && HasFour(pos)
    ensures HasFour(more)
  {
    if LineIn(pos, Vertical) {
      LineInMonotone(pos, more, Vertical);
    } else if LineIn(pos, Horizontal) {
      LineInMonotone(pos, more, Horizontal);
    } else if LineIn(pos, Diagonal) {
      LineInMonotone(pos, more, Diagonal);
    } else {
      LineInMonotone(pos, more, AntiDiagonal);
    }
  }
}
