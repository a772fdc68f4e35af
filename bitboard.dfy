/**
 * `Board` of `src/game.rs`: two 64-bit words. `mask` holds every stone on
 * the board; `player_bitboard` holds the stones of the player to move.
 *
 * The model adds a ghost abstraction: `heights.At(c)` is the number of
 * stones in column c. The invariant `Stacked` says that the window of each
 * column in `mask` holds exactly its lowest `heights.At(c)` cells. Stones therefore
 * never float, and no bit outside the playable grid is ever set.
 */
module BitBoard {
  import opened Geometry
  import opened Alignment

  /** The lowest `height` cells of `column`, as a word. */
  function ColumnBits(column: u8, height: u8): bv64
    requires column < WIDTH && height <= MASK_HEIGHT
  {
    ((1 << height) - 1) << (column * MASK_HEIGHT)
  }

  /** All seven bits of `column`, its sentinel included. */
  function Window(column: u8): bv64
    requires column < WIDTH
  {
    ColumnBits(column, MASK_HEIGHT)
  }

  /** ColumnBits(column, height) holds the cells of `column` below row `height`, and nothing else. */
  lemma ColumnCells(column: u8, height: u8, row: u8)
    requires column < WIDTH && height <= MASK_HEIGHT && row < MASK_HEIGHT
    ensures Has(ColumnBits(column, height), Index(column, row)) <==> row < height
  {
  }

  /** The column windows do not overlap. */
  lemma WindowsDisjoint(column: u8, row: u8, other: u8)
    requires column < WIDTH && row < MASK_HEIGHT && other < WIDTH && other != column
    ensures Cell(column, row) & Window(other) == 0
  {
  }

  /** `column` holds `height` stones, stacked from the bottom. */
  ghost predicate ColumnStacked(mask: bv64, column: u8, height: u8)
    requires column < WIDTH
  {
    height <= HEIGHT && mask & Window(column) == ColumnBits(column, height)
  }

  /** Stones per column, one entry for each of the seven columns. */
  datatype Heights = Heights(c0: u8, c1: u8, c2: u8, c3: u8, c4: u8, c5: u8, c6: u8) {
    /** The entry of `column`. */
    function At(column: u8): u8
      requires column < WIDTH
    {
      if column == 0 then c0 else if column == 1 then c1 else if column == 2 then c2
      else if column == 3 then c3 else if column == 4 then c4 else if column == 5 then c5
      else c6
    }

    /** The same heights with the entry of `column` replaced by `height`. */
    function With(column: u8, height: u8): (r: Heights)
      requires column < WIDTH
      ensures r.At(column) == height
      ensures forall other: u8 {:trigger r.At(other)} | other < WIDTH && other != column :: r.At(other) == At(other)
    {
      if column == 0 then this.(c0 := height) else if column == 1 then this.(c1 := height)
      else if column == 2 then this.(c2 := height) else if column == 3 then this.(c3 := height)
      else if column == 4 then this.(c4 := height) else if column == 5 then this.(c5 := height)
      else this.(c6 := height)
    }

    /** The number of stones. */
    function Total(): nat {
      c0 as nat + c1 as nat + c2 as nat + c3 as nat + c4 as nat + c5 as nat + c6 as nat
    }
  }

  /** The heights of the empty board. */
  const EMPTY: Heights := Heights(0, 0, 0, 0, 0, 0, 0)

  /** Each column of `mask` is stacked to its entry in `heights`, and `mask` lies on the grid. */
  ghost predicate Stacked(mask: bv64, heights: Heights) {
    OnBoard(mask) &&
    forall column: u8 {:trigger ColumnStacked(mask, column, heights.At(column))} | column < WIDTH ::
      ColumnStacked(mask, column, heights.At(column))
  }

  /** One more stone in `column` adds one to the total. */
  lemma TotalGrow(heights: Heights, column: u8)
    requires column < WIDTH && heights.At(column) < HEIGHT
    ensures heights.With(column, heights.At(column) + 1).Total() == heights.Total() + 1
  {
    var h := heights.At(column) + 1;
    if column == 0 {
      assert heights.With(column, h) == heights.(c0 := h);
    } else if column == 1 {
      assert heights.With(column, h) == heights.(c1 := h);
    } else if column == 2 {
      assert heights.With(column, h) == heights.(c2 := h);
    } else if column == 3 {
      assert heights.With(column, h) == heights.(c3 := h);
    } else if column == 4 {
      assert heights.With(column, h) == heights.(c4 := h);
    } else if column == 5 {
      assert heights.With(column, h) == heights.(c5 := h);
    } else {
      assert heights.With(column, h) == heights.(c6 := h);
    }
  }

  /** On stacked columns every entry is at most HEIGHT. */
  lemma HeightsBounded(mask: bv64, heights: Heights)
    requires Stacked(mask, heights)
    ensures heights.c0 <= HEIGHT && heights.c1 <= HEIGHT && heights.c2 <= HEIGHT && heights.c3 <= HEIGHT
    ensures heights.c4 <= HEIGHT && heights.c5 <= HEIGHT && heights.c6 <= HEIGHT
  {
    hide ColumnBits, Window;
    assert ColumnStacked(mask, 0, heights.At(0));
    assert ColumnStacked(mask, 1, heights.At(1));
    assert ColumnStacked(mask, 2, heights.At(2));
    assert ColumnStacked(mask, 3, heights.At(3));
    assert ColumnStacked(mask, 4, heights.At(4));
    assert ColumnStacked(mask, 5, heights.At(5));
    assert ColumnStacked(mask, 6, heights.At(6));
  }

  /** A board holds at most WIDTH * HEIGHT = 42 stones. */
  lemma TotalBound(mask: bv64, heights: Heights)
    requires Stacked(mask, heights)
    ensures heights.Total() <= 42
  {
    HeightsBounded(mask, heights);
    hide Stacked;
  }

  /** A column with room means the board is not full. */
  lemma TotalRoom(mask: bv64, heights: Heights, column: u8)
    requires Stacked(mask, heights) && column < WIDTH && heights.At(column) < HEIGHT
    ensures heights.Total() < 42
  {
    HeightsBounded(mask, heights);
    hide Stacked;
  }

  /** A board that is not full has a column with room. */
  lemma RoomLeft(mask: bv64, heights: Heights)
    requires Stacked(mask, heights) && heights.Total() < 42
    ensures exists column: u8 :: column < WIDTH && heights.At(column) < HEIGHT
  {
    HeightsBounded(mask, heights);
    hide Stacked;
    if heights.c6 < HEIGHT {
      assert heights.At(6) < HEIGHT;
    } else if heights.c5 < HEIGHT {
      assert heights.At(5) < HEIGHT;
    } else if heights.c4 < HEIGHT {
      assert heights.At(4) < HEIGHT;
    } else if heights.c3 < HEIGHT {
      assert heights.At(3) < HEIGHT;
    } else if heights.c2 < HEIGHT {
      assert heights.At(2) < HEIGHT;
    } else if heights.c1 < HEIGHT {
      assert heights.At(1) < HEIGHT;
    } else {
      assert heights.At(0) < HEIGHT;
    }
  }

  /** On a full board every column is filled to the top. */
  lemma NoRoomWhenFull(mask: bv64, heights: Heights)
    requires Stacked(mask, heights) && heights.Total() == 42
    ensures forall column: u8 :: column < WIDTH ==> heights.At(column) == HEIGHT
  {
    HeightsBounded(mask, heights);
    hide Stacked;
  }

  /** The bottom cell of `column` (columns 7 to 9 lie above the grid). */
  function BottomMask(column: u8): (m: bv64)
    requires column <= 9
    ensures column < WIDTH ==> m == Cell(column, 0)
  {
    1 << (column * MASK_HEIGHT)
  }

  /** The highest playable cell of `column`; for columns 7 to 9 it lies off the grid. */
  function TopMask(column: u8): (m: bv64)
    requires column <= 9
    ensures column < WIDTH ==> m == Cell(column, HEIGHT - 1)
    ensures column >= WIDTH ==> m & PLAYABLE == 0
  {
    BottomMask(column) << (MASK_HEIGHT - 2)
  }

  /** The top cell of a column is free exactly when the column holds fewer than HEIGHT stones. */
  lemma TopFree(mask: bv64, column: u8, height: u8)
    requires column < WIDTH && ColumnStacked(mask, column, height)
    ensures mask & TopMask(column) == 0 <==> height < HEIGHT
  {
  }

  /** One more cell on top of a column's stack. */
  lemma ColumnGrow(column: u8, height: u8)
    requires column < WIDTH && height < HEIGHT
    ensures ColumnBits(column, height) | Cell(column, height) == ColumnBits(column, height + 1)
    ensures Cell(column, height) & Window(column) == Cell(column, height)
  {
  }

  /** Every cell below the sentinel row lies on the grid. */
  lemma CellOnBoard(column: u8, height: u8)
    requires column < WIDTH && height < HEIGHT
    ensures Cell(column, height) & !PLAYABLE == 0
  {
  }

  /** The new cell extends the stack of its own column by one. */
  lemma GrowOwnWindow(mask: bv64, column: u8, height: u8)
    requires column < WIDTH && height < HEIGHT && mask & Window(column) == ColumnBits(column, height)
    ensures (mask | Cell(column, height)) & Window(column) == ColumnBits(column, height + 1)
  {
    ColumnGrow(column, height);
  }

  /** The new cell leaves the window of every other column as it was. */
  lemma GrowOtherWindow(mask: bv64, column: u8, height: u8, other: u8)
    requires column < WIDTH && height < HEIGHT && other < WIDTH && other != column
    ensures (mask | Cell(column, height)) & Window(other) == mask & Window(other)
  {
    WindowsDisjoint(column, height, other);
  }

  /** One column of the stacks after a stone lands on top of `column`. */
  lemma GrowAt(mask: bv64, heights: Heights, column: u8, height: u8, other: u8)
    requires column < WIDTH && other < WIDTH && heights.At(column) == height && height < HEIGHT
    requires ColumnStacked(mask, other, heights.At(other))
    ensures ColumnStacked(mask | Cell(column, height), other, heights.With(column, height + 1).At(other))
  {
    if other == column {
      GrowOwnWindow(mask, column, height);
    } else {
      GrowOtherWindow(mask, column, height, other);
    }
  }

  /** A cell below the sentinel row added to a word on the grid stays on the grid. */
  lemma OnBoardGrow(mask: bv64, column: u8, height: u8)
    requires OnBoard(mask) && column < WIDTH && height < HEIGHT
    ensures OnBoard(mask | Cell(column, height))
  {
    CellOnBoard(column, height);
  }

  /** Dropping a stone on top of a column that has room keeps the stacks stacked. */
  lemma StackedGrow(mask: bv64, heights: Heights, column: u8, height: u8)
    requires Stacked(mask, heights) && column < WIDTH && heights.At(column) == height && height < HEIGHT
    ensures Stacked(mask | Cell(column, height), heights.With(column, height + 1))
  {
    OnBoardGrow(mask, column, height);
    forall other: u8 {:trigger heights.With(column, height + 1).At(other)} | other < WIDTH
      ensures ColumnStacked(mask | Cell(column, height), other, heights.With(column, height + 1).At(other))
    {
      GrowAt(mask, heights, column, height, other);
    }
  }

  /** On stacked columns, the top-cell test of `can_play` reads as "the column has room". */
  lemma CanPlayStacked(mask: bv64, heights: Heights, column: u8)
    requires Stacked(mask, heights) && column < WIDTH
    ensures mask & TopMask(column) == 0 <==> heights.At(column) < HEIGHT
  {
    assert ColumnStacked(mask, column, heights.At(column));
    TopFree(mask, column, heights.At(column));
  }

  /** Columns 7 to 9 pass the top-cell test of `can_play` on any board with nothing off the grid. */
  lemma CanPlayOffGrid(mask: bv64, column: u8)
    requires OnBoard(mask) && WIDTH <= column <= 9
    ensures mask & TopMask(column) == 0
  {
  }

  /** The top-cell test of `can_play`, stated for any word and any heights. */
  lemma TopFreeIfStacked(mask: bv64, heights: Heights, column: u8)
    requires column <= 9
    ensures Stacked(mask, heights) && column < WIDTH ==> (mask & TopMask(column) == 0 <==> heights.At(column) < HEIGHT)
    ensures Stacked(mask, heights) && column >= WIDTH ==> mask & TopMask(column) == 0
  {
    if Stacked(mask, heights) && column < WIDTH {
      CanPlayStacked(mask, heights, column);
    } else if Stacked(mask, heights) {
      CanPlayOffGrid(mask, column);
    }
  }

  /** When the mover's stones lie inside a mask on the grid, so do the other player's. */
  lemma OtherOnBoard(mask: bv64, playerBitboard: bv64)
    requires OnBoard(mask) && Within(playerBitboard, mask)
    ensures OnBoard(playerBitboard ^ mask)
  {
  }

  /** `mask` after a stone is dropped in `column`: the carry of `mask + bottom` fills the lowest empty cell. */
  function NextMask(mask: bv64, column: u8): bv64
    requires column <= 9
  {
    mask | (mask + BottomMask(column))
  }

  /** The carry, stated on the shifted bit. */
  lemma CarryShift(mask: bv64, column: u8, height: u8)
    requires column < WIDTH && height < HEIGHT && ColumnStacked(mask, column, height)
    ensures NextMask(mask, column) == mask | (1 << Index(column, height))
    ensures mask & (1 << Index(column, height)) == 0
  {
  }

  lemma Carry(mask: bv64, column: u8, height: u8)
    requires column < WIDTH && height < HEIGHT && ColumnStacked(mask, column, height)
    ensures NextMask(mask, column) == mask | Cell(column, height)
    ensures mask & Cell(column, height) == 0
  {
    CarryShift(mask, column, height);
  }

  /** On stacked columns, NextMask adds exactly the lowest empty cell of the column. */
  lemma NextMaskCell(mask: bv64, heights: Heights, column: u8)
    requires Stacked(mask, heights) && column < WIDTH && heights.At(column) < HEIGHT
    ensures NextMask(mask, column) == mask | Cell(column, heights.At(column))
    ensures mask & Cell(column, heights.At(column)) == 0
  {
    hide NextMask, Cell, Index, ColumnBits, Window, BottomMask;
    assert ColumnStacked(mask, column, heights.At(column));
    Carry(mask, column, heights.At(column));
  }

  /** Dropping a stone keeps the stacks stacked, with one more stone in `column`. */
  lemma DropStacked(mask: bv64, heights: Heights, column: u8)
    requires Stacked(mask, heights) && column < WIDTH && heights.At(column) < HEIGHT
    ensures Stacked(NextMask(mask, column), heights.With(column, heights.At(column) + 1))
  {
    hide Stacked, ColumnStacked, Within, NextMask, Cell, Index, ColumnBits, Window, BottomMask;
    NextMaskCell(mask, heights, column);
    StackedGrow(mask, heights, column, heights.At(column));
  }

  /** The stones of the player not to move: every stone that is not the mover's. */
  function OtherStones(mask: bv64, playerBitboard: bv64): bv64 {
    playerBitboard ^ mask
  }

  /** After a drop, the new `player_bitboard` lies inside the new mask. */
  lemma DropInside(pb: bv64, mask: bv64, heights: Heights, column: u8)
    requires Stacked(mask, heights) && Within(pb, mask) && column < WIDTH && heights.At(column) < HEIGHT
    ensures Within(OtherStones(mask, pb), NextMask(mask, column))
  {
    hide Stacked, ColumnStacked, NextMask, Cell, Index, ColumnBits, Window, BottomMask;
    NextMaskCell(mask, heights, column);
  }

  /** After a drop, the stones of the player who moved are their old stones and the new one. */
  lemma DropStones(pb: bv64, mask: bv64, heights: Heights, column: u8)
    requires Stacked(mask, heights) && Within(pb, mask) && column < WIDTH && heights.At(column) < HEIGHT
    ensures OtherStones(NextMask(mask, column), OtherStones(mask, pb)) == pb | Cell(column, heights.At(column))
  {
    hide Stacked, ColumnStacked, NextMask, Cell, Index, ColumnBits, Window, BottomMask;
    NextMaskCell(mask, heights, column);
  }

  /** A drop takes no stone away from the player who moves. */
  lemma DropKeeps(pb: bv64, mask: bv64, heights: Heights, column: u8)
    requires Stacked(mask, heights) && Within(pb, mask) && column < WIDTH && heights.At(column) < HEIGHT
    ensures Within(pb, OtherStones(NextMask(mask, column), OtherStones(mask, pb)))
  {
    hide Stacked, ColumnStacked, NextMask, Cell, Index, ColumnBits, Window, BottomMask;
    NextMaskCell(mask, heights, column);
  }

  /** The invariant of a board: stacked columns, and the mover's stones are stones on the board. */
  ghost predicate WellFormed(mask: bv64, playerBitboard: bv64, heights: Heights) {
    Stacked(mask, heights) && Within(playerBitboard, mask)
  }

  /** A drop into a column with room keeps a board well formed. */
  lemma DropWellFormed(mask: bv64, playerBitboard: bv64, heights: Heights, column: u8)
    requires WellFormed(mask, playerBitboard, heights) && column < WIDTH && heights.At(column) < HEIGHT
    ensures WellFormed(NextMask(mask, column), OtherStones(mask, playerBitboard), heights.With(column, heights.At(column) + 1))
  {
    hide Stacked, ColumnStacked, Within, NextMask, Cell, Index, ColumnBits, Window, BottomMask;
    DropStacked(mask, heights, column);
    DropInside(playerBitboard, mask, heights, column);
  }

  class Board {
    /** Every stone on the board. */
    var mask: bv64
    /** The stones of the player to move. */
    var playerBitboard: bv64
    /** Stones per column. */
    ghost var heights: Heights

    /** The columns are stacked to `heights`, and the mover's stones are stones on the board. */
    ghost predicate Valid()
      reads this
    {
      WellFormed(mask, playerBitboard, heights)
    }

    /** The empty board. */
    constructor ()
      ensures Valid()
      ensures mask == 0 && playerBitboard == 0 && heights == EMPTY
    {
      mask := 0;
      playerBitboard := 0;
      heights := EMPTY;
    }

    /**
     * Whether a stone can be dropped in `column`: its top playable cell is
     * empty. Columns 7 to 9 have their top cell off the grid and so always
     * answer yes.
     */
    function CanPlay(column: u8): (r: bool)
      reads this
      requires column <= 9
      ensures Valid() && column < WIDTH ==> (r <==> heights.At(column) < HEIGHT)
      ensures Valid() && column >= WIDTH ==> r
    {
      TopFreeIfStacked(mask, heights, column);
      mask & TopMask(column) == 0
    }

    /** The stones of the player who made the last move. */
    function Stones(): bv64
      reads this
    {
      OtherStones(mask, playerBitboard)
    }

    /** Whether the player who made the last move has four in a row. */
    function Alignment(): (r: bool)
      reads this
      requires Valid()
      ensures r <==> HasFour(Stones())
    {
      OtherOnBoard(mask, playerBitboard);
      AlignedIffHasFour(Stones());
      Aligned(Stones())
    }

    /**
     * Drops a stone for the player to move into `column`, hands the turn to
     * the other player and reports whether the mover now has four in a row.
     */
    method Play(column: u8) returns (aligned: bool)
      modifies this
      requires Valid() && column < WIDTH && CanPlay(column)
      ensures Valid()
      ensures heights == old(heights.With(column, heights.At(column) + 1))
      ensures playerBitboard == old(OtherStones(mask, playerBitboard))
      ensures mask == old(NextMask(mask, column))
      ensures aligned <==> HasFour(OtherStones(mask, playerBitboard))
    {
      // The definitions named here are hidden to keep this proof cheap for the solver;
      // the facts it needs about them come from the lemmas and postconditions it calls.
      hide WellFormed, NextMask, TopMask, Heights.At, Heights.With, OtherStones, Board.CanPlay;
      DropWellFormed(mask, playerBitboard, heights, column);
      playerBitboard := Stones();
      mask := NextMask(mask, column);
      heights := heights.With(column, heights.At(column) + 1);
      aligned := Alignment();
    }
  }
}
