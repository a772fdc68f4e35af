# Connect-Four rule engine in Dafny

This project models the rule engine of a Connect-Four program, `src/game.rs`, and proves what its
bit tricks and its turn-and-outcome state machine achieve.

- **Board.** The board is two 64-bit words. `mask` has a bit for every occupied cell.
  `player_bitboard` has a bit for every stone of the player to move.
  - Each column takes seven bits: six playable cells and one sentinel bit that stays empty.
  - `can_play` tests the top playable cell of a column.
  - `play` first flips perspective with `player_bitboard ^= mask`. It then drops a stone with the carry
    trick `mask |= mask + bottom_mask(column)`.
  - `alignment` detects four in a row with four shift-and-AND tests. The shifts are 1, 7, 8 and 6.
- **Game.** The game wraps a board together with the player to move (tag 1 or 2), a `u8` move counter
  and a cached outcome `Win(p) | Draw | Unfinished`.
  - It offers `legal_actions`, `play`, `player` and `state(viewer)` to an external tree search.

The model keeps the source's data layout. Words are `bv64` and `u8` is `bv8`, and every bit
operation is written as in the source.

- `BitBoard.Board` is a class with the fields `mask` and `playerBitboard`.
  - A ghost field `heights` records the number of stones in each column, as the 7-field datatype
    `Heights`.
  - The invariant `WellFormed` has two parts. `Stacked` says every column of `mask` is filled
    contiguously from the bottom, to the height recorded in `heights`. `Within` says
    `playerBitboard & !mask == 0`.
- `Connect4.Game` is a class with the fields `board`, `player`, `state` and `moves`.
  - Its invariant `Consistent` says that `moves` counts the stones and that the player to move
    follows from the parity of that count.
  - It also says the cached outcome agrees with the stones. An unfinished game has no four in a row
    and fewer than 42 moves. A draw has 42 moves. In `Win(p)` the player *other than* `p` has four
    in a row.
- The geometric meaning of a word of stones is given in `Geometry`:
  - `Cell(c, r)` is bit `7c + r`;
  - `FourFrom`, `LineIn` and `HasFour` say that four cells in a row of the 7×6 grid are set.

  `Alignment.AlignedIffHasFour` proves that the source's shift-and-AND test finds exactly these lines
  on any word that lies on the grid.

Files:
- `geometry.dfy` (module `Geometry`): constants, cells, lines of four.
- `alignment.dfy` (module `Alignment`): `check`/`alignment` and their proof.
- `bitboard.dfy` (module `BitBoard`): masks, column heights, the carry trick, class `Board`.
- `game.dfy` (module `Connect4`): `Player`, `State`, `MctsState`, the invariant, class `Game`.

Two behaviours of the code that the model keeps as written:

- **The tag of `Win`.** `play` flips `player` before it records `Win(self.player())`
  (src/game.rs:46-49). The recorded tag is therefore the player to move after the winning stone,
  not the player who placed it. So `state(viewer)` reports `Win` to the loser and `Lose` to the
  winner. `Connect4.WinnerOpponentAligned` states this, and `Connect4.Game.Play` records exactly
  this tag. `Connect4.VerticalWinOpening` shows it on a concrete game.
- **After the game ends.** `play` does not refuse a move after `Win` (src/game.rs:44-53). The model
  allows a move after `Win` while a column has room, including the 42nd move, which turns the `Win`
  into `Draw` (src/game.rs:50-51), in the source's branch order. A `Draw` is only recorded on a full
  board, so no move can follow it (`Connect4.DrawIsFull`); in the source such a move would go into a
  full column, which lies outside the model (see "## Left out").

## Model

| member | source | states |
|---|---|---|
| Alignment.VerticalLines | src/game.rs:137-148 | on a grid word, `check(pos, 1)` holds iff one of the 21 vertical lines of four is full |
| Alignment.VerticalStarts | src/game.rs:137-148 | those 21 start cells give every vertical line of the grid |
| Alignment.HorizontalLines | src/game.rs:137-148 | on a grid word, `check(pos, 7)` holds iff one of the 24 horizontal lines of four is full; bits 49 to 63 being clear stops a line from running past column 6 |
| Alignment.HorizontalStarts | src/game.rs:137-148 | those 24 start cells give every horizontal line of the grid |
| Alignment.DiagonalLines | src/game.rs:137-148 | on a grid word, `check(pos, 8)` holds iff one of the 12 rising diagonals of four is full |
| Alignment.DiagonalStarts | src/game.rs:137-148 | those 12 start cells give every rising diagonal of the grid |
| Alignment.AntiDiagonalLines | src/game.rs:137-148 | on a grid word, `check(pos, 6)` holds iff one of the 12 falling diagonals of four is full |
| Alignment.AntiDiagonalStarts | src/game.rs:137-148 | those 12 start cells give every falling diagonal of the grid |
| Alignment.VerticalCheck | src/game.rs:137-148 | `check(pos, 1)` holds iff `pos` has a vertical line of four |
| Alignment.HorizontalCheck | src/game.rs:137-148 | `check(pos, MASK_HEIGHT)` holds iff `pos` has a horizontal line of four |
| Alignment.DiagonalCheck | src/game.rs:137-148 | `check(pos, MASK_HEIGHT + 1)` holds iff `pos` has a rising diagonal line of four |
| Alignment.AntiDiagonalCheck | src/game.rs:137-148 | `check(pos, MASK_HEIGHT - 1)` holds iff `pos` has a falling diagonal line of four |
| Alignment.Check | src/game.rs:139-142 | `check(pos, shift)`, the shift-and-AND test for four bits spaced `shift` apart; its meaning per direction is given by `Alignment.VerticalCheck`, `HorizontalCheck`, `DiagonalCheck` and `AntiDiagonalCheck` |
| Alignment.Aligned | src/game.rs:143-147 | the disjunction of `check` with shifts 1, 7, 8 and 6; its meaning is given by `Alignment.AlignedIffHasFour` |
| Alignment.AlignedIffHasFour | src/game.rs:137-148 | `alignment` is exact: on a grid word it holds iff the word has four in a row in some direction (both directions of the iff) |
| Geometry.IndexCoordinates | src/game.rs:116-118 | cell index `column * 7 + row` is below 49 and gives back column and row by `/ 7` and `% 7` |
| Geometry.HasFourMonotone | src/game.rs:46-49 | adding stones never removes a line of four, so an earlier win stays witnessed as the game goes on |
| BitBoard.BottomMask | src/game.rs:150-152 | `bottom_mask(c)` is the bottom cell of column c for c < 7 |
| BitBoard.TopMask | src/game.rs:154-156 | `top_mask(c)` is the top playable cell (row 5) of column c for c < 7, and lies off the grid for c = 7..9 |
| BitBoard.TopFree | src/game.rs:127-129 | on a column stacked to height h, the top cell is clear iff h < 6 |
| BitBoard.CanPlayStacked | src/game.rs:127-129 | on stacked columns, `can_play(c)` holds iff column c has fewer than 6 stones |
| BitBoard.CanPlayOffGrid | src/game.rs:127-129 | for columns 7 to 9 `can_play` reports room on any grid mask |
| BitBoard.TotalBound | src/game.rs:116-117 | a stacked board holds at most WIDTH × HEIGHT = 42 stones |
| BitBoard.TotalRoom | src/game.rs:127-129 | a column with room means fewer than 42 stones |
| BitBoard.RoomLeft | src/game.rs:34-42 | a stacked board with fewer than 42 stones has a column with room |
| BitBoard.NoRoomWhenFull | src/game.rs:34-42 | on a stacked board with 42 stones every column is full |
| BitBoard.Carry | src/game.rs:133 | on a column stacked to height h < 6, `mask \| (mask + bottom_mask(c))` is `mask` plus exactly the cell (c, h), which was empty |
| BitBoard.NextMask | src/game.rs:133 | the bitwise or of `mask` and `mask + bottom_mask(column)`; its meaning is given by `BitBoard.NextMaskCell` |
| BitBoard.NextMaskCell | src/game.rs:133 | the carry trick sets exactly one new bit, the lowest empty cell of the column |
| BitBoard.DropStacked | src/game.rs:133 | after the carry trick all columns are still stacked; column c grows by one and every other column keeps its height |
| BitBoard.DropInside | src/game.rs:132-133 | the new `player_bitboard` (`pb ^ mask`) is still inside the new mask: `pb & !mask == 0` is preserved |
| BitBoard.OtherStones | src/game.rs:132 | `player_bitboard ^ mask`, the stones of the player not to move; its meaning after a move is given by `BitBoard.DropStones` |
| BitBoard.DropStones | src/game.rs:132-133 | after the move, the mover's stones `pb' ^ mask'` are their old stones plus the new cell |
| BitBoard.DropKeeps | src/game.rs:132-133 | the mover's old stones are all among their stones after the move |
| BitBoard.DropWellFormed | src/game.rs:131-133 | the flip and the drop keep the board invariant, with the column's height increased by one |
| BitBoard.OtherOnBoard | src/game.rs:142 | `player_bitboard ^ mask` (the last mover's stones) lies on the grid |
| BitBoard.Board.constructor | src/game.rs:120-125 | `Board::new` is empty and well formed |
| BitBoard.Board.CanPlay | src/game.rs:127-129 | under the invariant, `can_play(c)` iff column c has fewer than 6 stones (c < 7); true for c = 7..9 |
| BitBoard.Board.Alignment | src/game.rs:137-148 | `alignment()` iff the last mover's stones `pb ^ mask` hold four in a row |
| BitBoard.Board.Stones | src/game.rs:143 | `player_bitboard ^ mask` on the board's fields, the last mover's stones; `BitBoard.Board.Alignment` states that the line test runs on them |
| BitBoard.Board.Play | src/game.rs:131-135 | new `player_bitboard` is `old pb ^ old mask`; new mask is the carry-trick mask; the height of the column grows by one; the invariant holds; the result is whether the mover now has four in a row |
| Connect4.Player.Other | src/game.rs:167-169 | `other` swaps tags 1 and 2 |
| Connect4.OtherInvolution | src/game.rs:167-169 | `other` is an involution, and on {1, 2} it has no fixed point and stays in {1, 2} |
| Connect4.Outcome | src/game.rs:48-52 | the `if`/`else if` update of the cached outcome, in the source's branch order; its meaning is given by `Connect4.OutcomeCases` |
| Connect4.OutcomeCases | src/game.rs:48-52 | the three-way update records a new `Win` only for a line on an unfinished game, `Draw` only at 42 moves or when it was already a draw, and stays unfinished only without a line below 42 moves |
| Connect4.StartConsistent | src/game.rs:12-19 | the start position (empty board, player 1, 0 moves, `Unfinished`) meets the game invariant |
| Connect4.NoStonesNoFour | src/game.rs:12-19 | the empty board has no four in a row |
| Connect4.CountUp | src/game.rs:46 | `moves += 1` does not wrap below 42 moves |
| Connect4.TurnNext | src/game.rs:47 | flipping the player matches the parity of the move count |
| Connect4.StepCount | src/game.rs:44-46 | after a move the counter still equals the number of stones |
| Connect4.StepTurn | src/game.rs:47 | after a move the player to move is fixed by the parity of the new count |
| Connect4.StepUnfinished | src/game.rs:48-52 | a move that leaves the game unfinished leaves no line for either side and fewer than 42 moves |
| Connect4.StepDraw | src/game.rs:50-51 | a move that records `Draw` is the 42nd |
| Connect4.StepWin | src/game.rs:47-49 | after a move, in `Win(p)` the player other than `p` has four in a row, whether the win is new or kept |
| Connect4.PlayStep | src/game.rs:44-53 | one `play` keeps the game invariant |
| Connect4.PlayReady | src/game.rs:44-46 | a game that may be played has a board that meets `Board::play`'s preconditions, and the move keeps the invariant |
| Connect4.Game.constructor | src/game.rs:12-19 | `Game::new`: empty board, player 1 (`Player::new`, src/game.rs:163-165), 0 moves, `Unfinished`, invariant holds |
| Connect4.Game.CanPlay | src/game.rs:21-23 | `can_play(a)` iff column a has fewer than 6 stones (a < 7); true for a = 7..9 |
| Connect4.Game.CurrentState | src/game.rs:25-27 | the cached outcome agrees with the board: no line while unfinished, 42 stones at a draw, and in `Win(p)` the opponent of `p` has four in a row |
| Connect4.Game.PlayerToMove | src/game.rs:55-57 | the player to move is 1 after an even and 2 after an odd number of moves |
| Connect4.Game.RelativeState | src/game.rs:59-66 | `Unfinished` and `Draw` pass through; `Win(p)` is `Win` for viewer p and `Lose` for any other viewer (each as an iff) |
| Connect4.Game.LegalActions | src/game.rs:34-42 | the result holds exactly the columns below 7 where `can_play` holds, in strictly ascending order (so without duplicates); under the invariant these are the columns with room |
| Connect4.Game.Play | src/game.rs:44-53 | the board move as `Board::play`; `moves` one more; `player` flipped; the outcome is the three-way update with the new player as `Win` tag; invariant kept |
| Connect4.UnfinishedHasMove | src/game.rs:34-42 | an unfinished game always has a legal action |
| Connect4.DrawIsFull | src/game.rs:50-52 | a drawn game has no legal action |
| Connect4.NoActionsIffFull | src/game.rs:34-42 | under the invariant, no column below 7 can be played exactly when the board holds 42 stones, so `legal_actions` is empty exactly then (both directions) |
| Connect4.ViewsAgree | src/game.rs:59-66 | for players 1 and 2, one sees `Win` exactly when the other sees `Lose`, and both see `Draw` together |
| Connect4.WinnerOpponentAligned | src/game.rs:47-49 | a viewer told `Win` is one whose opponent has four in a row, because the tag is recorded after the flip |
| Connect4.OpeningLines | src/game.rs:137-148 | of the stone sets met in the opening 0, 1, 0, 1, 0, 1, 0, only player 1's final four stones in column 0 hold a line |
| Connect4.VerticalWinOpening | src/game.rs:44-66 | after `new` and the plays 0, 1, 0, 1, 0, 1, 0, player 1, who completed the vertical line, is told `Lose` and player 2 is told `Win` |

## Left out

- `impl Display for Game` (src/game.rs:69-107) renders text for people. It is not part of the rules.
- `src/bin/main.rs` is not part of this model. It is the console driver loop, which calls the
  external tree search and prints the board.
- The `mcts` crate and its `MctsGame` trait are not part of this model. `MctsState` is a local
  datatype, and the trait's operations are methods and functions of `Game`.
- Playing a full column or a column ≥ 7 is excluded by preconditions. The source does not check for
  either.
  - In a full column c, one carry sets the column's own sentinel bit 7c + 6; only a second play
    into the same column carries into column c + 1.
  - For columns 7 to 9, `bottom_mask` lands on bits 49 to 63, off the grid.
  - `BitBoard.Board.Play` and `Connect4.Game.Play` require `column < 7` and `can_play(column)`.
- `can_play` and `play` for columns of 10 and above. For columns 10 to 36 the shift
  `1 << (column * 7)` is 70 bits or more, which panics in a debug build. From column 37 on, the
  `u8` product `column * 7` (src/game.rs:151) overflows first: a debug build panics at the
  multiplication, and a release build wraps it to a small shift.
  - `BitBoard.Board.CanPlay` and `Connect4.Game.CanPlay` require `column <= 9`.
  - Columns 7 to 9 are modelled and report room, as the code does.
- Tag wrap-around. `Player.Other` computes `3 - tag` on `u8` with wrap-around, as a release build
  does; a debug build panics for tags above 3 instead. The invariant keeps the tag at 1 or 2,
  where neither happens.
- `moves` overflow. The counter is added on `u8` as in the source. The invariant keeps it at most
  42, so it never wraps.
- The `Clone`, `Copy`, `Debug` and `PartialEq` derives. Datatype equality in Dafny matches
  `PartialEq`. There is no copy method for the classes, because the search's cloning is not part
  of this model.
- Connect4.Game.Play: its `state` postcondition is stated through the function `Outcome` (src/game.rs:48-52).
  - The body updates `state` by a call to this function, not by the literal `if`/`else if`
    statement.
  - The branches, their order and the post-flip tag are the same.
- `BitBoard.Board.heights` is ghost. It serves only as the abstract column heights that the
  invariant relates to `mask`.
