/**
 * The bit-parallel four-in-a-row test of `Board::alignment` and
 * `Board::check` in `src/game.rs`, and its proof against the geometric
 * definition `Geometry.HasFour`.
 *
 * `check(pos, s)` ANDs `pos` with itself shifted by `s`, then ANDs the
 * result with itself shifted by `2 * s`: bit i survives exactly when bits
 * i, i + s, i + 2s and i + 3s of `pos` are all set. Each column carries a
 * sentinel bit that never holds a stone, so on a word of stones such a run
 * of bits is a line on the grid and never wraps from the top of one column
 * into the next.
 *
 * The proof works one direction at a time. For each direction it lists the
 * cells where a line of four can start and shows, as one identity on 64-bit
 * words, that `check` holds exactly when one of those lines is full. Every
 * shift in these identities is a constant, which keeps them within reach of
 * the bit-vector decision procedure.
 */
module Alignment {
  import opened Geometry

  /** `check` in `Board::alignment`: some four bits of `pos` spaced `shift` apart are all set. */
  function Check(pos: bv64, shift: u8): bool
    requires shift < 32
  {
    var m := pos & (pos >> shift);
    m & (m >> (2 * shift)) != 0
  }

  /** `Board::alignment` applied to the stones `pos`: the four shifts are vertical, horizontal and the two diagonals. */
  function Aligned(pos: bv64): bool {
    Check(pos, Step(Vertical))
    || Check(pos, Step(Horizontal))
    || Check(pos, Step(Diagonal))
    || Check(pos, Step(AntiDiagonal))
  }

  /** On stones that lie on the grid, `check` with the vertical step holds iff one of the 21 vertical lines is full. */
  lemma VerticalLines(pos: bv64)
    requires OnBoard(pos)
    ensures Check(pos, 1) <==>
      FourFrom(pos, 0, 0, Vertical) || FourFrom(pos, 0, 1, Vertical) || FourFrom(pos, 0, 2, Vertical)
      || FourFrom(pos, 1, 0, Vertical) || FourFrom(pos, 1, 1, Vertical) || FourFrom(pos, 1, 2, Vertical)
      || FourFrom(pos, 2, 0, Vertical) || FourFrom(pos, 2, 1, Vertical) || FourFrom(pos, 2, 2, Vertical)
      || FourFrom(pos, 3, 0, Vertical) || FourFrom(pos, 3, 1, Vertical) || FourFrom(pos, 3, 2, Vertical)
      || FourFrom(pos, 4, 0, Vertical) || FourFrom(pos, 4, 1, Vertical) || FourFrom(pos, 4, 2, Vertical)
      || FourFrom(pos, 5, 0, Vertical) || FourFrom(pos, 5, 1, Vertical) || FourFrom(pos, 5, 2, Vertical)
      || FourFrom(pos, 6, 0, Vertical) || FourFrom(pos, 6, 1, Vertical) || FourFrom(pos, 6, 2, Vertical)
  {
  }

  /** The 21 lines listed in VerticalLines are all the vertical lines of the grid. */
  lemma VerticalStarts(pos: bv64)
    ensures LineIn(pos, Vertical) <==>
      FourFrom(pos, 0, 0, Vertical) || FourFrom(pos, 0, 1, Vertical) || FourFrom(pos, 0, 2, Vertical)
      || FourFrom(pos, 1, 0, Vertical) || FourFrom(pos, 1, 1, Vertical) || FourFrom(pos, 1, 2, Vertical)
      || FourFrom(pos, 2, 0, Vertical) || FourFrom(pos, 2, 1, Vertical) || FourFrom(pos, 2, 2, Vertical)
      || FourFrom(pos, 3, 0, Vertical) || FourFrom(pos, 3, 1, Vertical) || FourFrom(pos, 3, 2, Vertical)
      || FourFrom(pos, 4, 0, Vertical) || FourFrom(pos, 4, 1, Vertical) || FourFrom(pos, 4, 2, Vertical)
      || FourFrom(pos, 5, 0, Vertical) || FourFrom(pos, 5, 1, Vertical) || FourFrom(pos, 5, 2, Vertical)
      || FourFrom(pos, 6, 0, Vertical) || FourFrom(pos, 6, 1, Vertical) || FourFrom(pos, 6, 2, Vertical)
  {
    if LineIn(pos, Vertical) {
      var column: u8, row: u8 :| column < WIDTH && row < HEIGHT && FourFrom(pos, column, row, Vertical);
      assert 0 <= column < 7 && 0 <= row < 3;
    }
  }

  /** On stones that lie on the grid, `check` with the horizontal step holds iff one of the 24 horizontal lines is full. */
  lemma HorizontalLines(pos: bv64)
    requires OnBoard(pos)
    ensures Check(pos, MASK_HEIGHT) <==>
      FourFrom(pos, 0, 0, Horizontal) || FourFrom(pos, 0, 1, Horizontal) || FourFrom(pos, 0, 2, Horizontal)
      || FourFrom(pos, 0, 3, Horizontal) || FourFrom(pos, 0, 4, Horizontal) || FourFrom(pos, 0, 5, Horizontal)
      || FourFrom(pos, 1, 0, Horizontal) || FourFrom(pos, 1, 1, Horizontal) || FourFrom(pos, 1, 2, Horizontal)
      || FourFrom(pos, 1, 3, Horizontal) || FourFrom(pos, 1, 4, Horizontal) || FourFrom(pos, 1, 5, Horizontal)
      || FourFrom(pos, 2, 0, Horizontal) || FourFrom(pos, 2, 1, Horizontal) || FourFrom(pos, 2, 2, Horizontal)
      || FourFrom(pos, 2, 3, Horizontal) || FourFrom(pos, 2, 4, Horizontal) || FourFrom(pos, 2, 5, Horizontal)
      || FourFrom(pos, 3, 0, Horizontal) || FourFrom(pos, 3, 1, Horizontal) || FourFrom(pos, 3, 2, Horizontal)
      || FourFrom(pos, 3, 3, Horizontal) || FourFrom(pos, 3, 4, Horizontal) || FourFrom(pos, 3, 5, Horizontal)
  {
  }

  /** The 24 lines listed in HorizontalLines are all the horizontal lines of the grid. */
  lemma HorizontalStarts(pos: bv64)
    ensures LineIn(pos, Horizontal) <==>
      FourFrom(pos, 0, 0, Horizontal) || FourFrom(pos, 0, 1, Horizontal) || FourFrom(pos, 0, 2, Horizontal)
      || FourFrom(pos, 0, 3, Horizontal) || FourFrom(pos, 0, 4, Horizontal) || FourFrom(pos, 0, 5, Horizontal)
      || FourFrom(pos, 1, 0, Horizontal) || FourFrom(pos, 1, 1, Horizontal) || FourFrom(pos, 1, 2, Horizontal)
      || FourFrom(pos, 1, 3, Horizontal) || FourFrom(pos, 1, 4, Horizontal) || FourFrom(pos, 1, 5, Horizontal)
      || FourFrom(pos, 2, 0, Horizontal) || FourFrom(pos, 2, 1, Horizontal) || FourFrom(pos, 2, 2, Horizontal)
      || FourFrom(pos, 2, 3, Horizontal) || FourFrom(pos, 2, 4, Horizontal) || FourFrom(pos, 2, 5, Horizontal)
      || FourFrom(pos, 3, 0, Horizontal) || FourFrom(pos, 3, 1, Horizontal) || FourFrom(pos, 3, 2, Horizontal)
      || FourFrom(pos, 3, 3, Horizontal) || FourFrom(pos, 3, 4, Horizontal) || FourFrom(pos, 3, 5, Horizontal)
  {
    if LineIn(pos, Horizontal) {
      var column: u8, row: u8 :| column < WIDTH && row < HEIGHT && FourFrom(pos, column, row, Horizontal);
      assert 0 <= column < 4 && 0 <= row < 6;
    }
  }

  /** On stones that lie on the grid, `check` with the rising diagonal step holds iff one of the 12 rising diagonal lines is full. */
  lemma DiagonalLines(pos: bv64)
    requires OnBoard(pos)
    ensures Check(pos, MASK_HEIGHT + 1) <==>
      FourFrom(pos, 0, 0, Diagonal) || FourFrom(pos, 0, 1, Diagonal) || FourFrom(pos, 0, 2, Diagonal)
      || FourFrom(pos, 1, 0, Diagonal) || FourFrom(pos, 1, 1, Diagonal) || FourFrom(pos, 1, 2, Diagonal)
      || FourFrom(pos, 2, 0, Diagonal) || FourFrom(pos, 2, 1, Diagonal) || FourFrom(pos, 2, 2, Diagonal)
      || FourFrom(pos, 3, 0, Diagonal) || FourFrom(pos, 3, 1, Diagonal) || FourFrom(pos, 3, 2, Diagonal)
  {
  }

  /** The 12 lines listed in DiagonalLines are all the rising diagonal lines of the grid. */
  lemma DiagonalStarts(pos: bv64)
    ensures LineIn(pos, Diagonal) <==>
      FourFrom(pos, 0, 0, Diagonal) || FourFrom(pos, 0, 1, Diagonal) || FourFrom(pos, 0, 2, Diagonal)
      || FourFrom(pos, 1, 0, Diagonal) || FourFrom(pos, 1, 1, Diagonal) || FourFrom(pos, 1, 2, Diagonal)
      || FourFrom(pos, 2, 0, Diagonal) || FourFrom(pos, 2, 1, Diagonal) || FourFrom(pos, 2, 2, Diagonal)
      || FourFrom(pos, 3, 0, Diagonal) || FourFrom(pos, 3, 1, Diagonal) || FourFrom(pos, 3, 2, Diagonal)
  {
    if LineIn(pos, Diagonal) {
      var column: u8, row: u8 :| column < WIDTH && row < HEIGHT && FourFrom(pos, column, row, Diagonal);
      assert 0 <= column < 4 && 0 <= row < 3;
    }
  }

  /** On stones that lie on the grid, `check` with the falling diagonal step holds iff one of the 12 falling diagonal lines is full. */
  lemma AntiDiagonalLines(pos: bv64)
    requires OnBoard(pos)
    ensures Check(pos, MASK_HEIGHT - 1) <==>
      FourFrom(pos, 0, 3, AntiDiagonal) || FourFrom(pos, 0, 4, AntiDiagonal) || FourFrom(pos, 0, 5, AntiDiagonal)
      || FourFrom(pos, 1, 3, AntiDiagonal) || FourFrom(pos, 1, 4, AntiDiagonal) || FourFrom(pos, 1, 5, AntiDiagonal)
      || FourFrom(pos, 2, 3, AntiDiagonal) || FourFrom(pos, 2, 4, AntiDiagonal) || FourFrom(pos, 2, 5, AntiDiagonal)
      || FourFrom(pos, 3, 3, AntiDiagonal) || FourFrom(pos, 3, 4, AntiDiagonal) || FourFrom(pos, 3, 5, AntiDiagonal)
  {
  }

  /** The 12 lines listed in AntiDiagonalLines are all the falling diagonal lines of the grid. */
  lemma AntiDiagonalStarts(pos: bv64)
    ensures LineIn(pos, AntiDiagonal) <==>
      FourFrom(pos, 0, 3, AntiDiagonal) || FourFrom(pos, 0, 4, AntiDiagonal) || FourFrom(pos, 0, 5, AntiDiagonal)
      || FourFrom(pos, 1, 3, AntiDiagonal) || FourFrom(pos, 1, 4, AntiDiagonal) || FourFrom(pos, 1, 5, AntiDiagonal)
      || FourFrom(pos, 2, 3, AntiDiagonal) || FourFrom(pos, 2, 4, AntiDiagonal) || FourFrom(pos, 2, 5, AntiDiagonal)
      || FourFrom(pos, 3, 3, AntiDiagonal) || FourFrom(pos, 3, 4, AntiDiagonal) || FourFrom(pos, 3, 5, AntiDiagonal)
  {
    if LineIn(pos, AntiDiagonal) {
      var column: u8, row: u8 :| column < WIDTH && row < HEIGHT && FourFrom(pos, column, row, AntiDiagonal);
      assert 0 <= column < 4 && 3 <= row < 6;
    }
  }

  /** On stones that lie on the grid, `check` with the vertical step finds exactly the vertical lines of four. */
  lemma VerticalCheck(pos: bv64)
    requires OnBoard(pos)
    ensures Check(pos, 1) <==>
      LineIn(pos, Vertical)
  {
    VerticalLines(pos);
    VerticalStarts(pos);
  }

  /** On stones that lie on the grid, `check` with the horizontal step finds exactly the horizontal lines of four. */
  lemma HorizontalCheck(pos: bv64)
    requires OnBoard(pos)
    ensures Check(pos, MASK_HEIGHT) <==>
      LineIn(pos, Horizontal)
  {
    HorizontalLines(pos);
    HorizontalStarts(pos);
  }

  /** On stones that lie on the grid, `check` with the rising diagonal step finds exactly the rising diagonal lines of four. */
  lemma DiagonalCheck(pos: bv64)
    requires OnBoard(pos)
    ensures Check(pos, MASK_HEIGHT + 1) <==>
      LineIn(pos, Diagonal)
  {
    DiagonalLines(pos);
    DiagonalStarts(pos);
  }

  /** On stones that lie on the grid, `check` with the falling diagonal step finds exactly the falling diagonal lines of four. */
  lemma AntiDiagonalCheck(pos: bv64)
    requires OnBoard(pos)
    ensures Check(pos, MASK_HEIGHT - 1) <==>
      LineIn(pos, AntiDiagonal)
  {
    AntiDiagonalLines(pos);
    AntiDiagonalStarts(pos);
  }

  /** `alignment` is exact: on stones that lie on the grid it holds iff they contain four in a row. */
  lemma AlignedIffHasFour(pos: bv64)
    requires OnBoard(pos)
    ensures Aligned(pos) <==> HasFour(pos)
  {
    VerticalCheck(pos);
    HorizontalCheck(pos);
    DiagonalCheck(pos);
    AntiDiagonalCheck(pos);
  }
}
