/**
 * `Game` of `src/game.rs`: the turn and outcome state machine that a tree
 * search drives through `legal_actions`, `play`, `player` and `state`.
 *
 * The game keeps a board, the player to move, the number of moves made and
 * a cached outcome. The invariant `Consistent` ties them together: the move
 * counter is the number of stones, player 1 moves after an even number of
 * moves, an unfinished game has no four in a row, a draw is a full board,
 * and in `Win(p)` the player other than `p` has four in a row. That last
 * clause is how the code behaves: `play` flips the player before it records
 * `Win(self.player())`, so the tag names the player to move next, not the
 * player who completed the line.
 */
module Connect4 {
  import opened Geometry
  import opened BitBoard
  import opened Alignment

  /** A player tag, 1 or 2, as Rust's `Player(pub u8)`. */
  datatype Player = Player(tag: u8) {
    /** `3 - tag`, computed on `u8` as the code does. */
    function Other(): (r: Player)
      ensures tag == 1 ==> r.tag == 2
      ensures tag == 2 ==> r.tag == 1
    {
      Player(3 - tag)
    }
  }

  /** `Player::new`: the player who moves first. */
  const FIRST: Player := Player(1)
  const SECOND: Player := Player(2)

  /** The outcome the game caches, as `State` of the source. */
  datatype State = Win(p: Player) | Draw | Unfinished

  /** The outcome seen from one player, as the search expects it. */
  datatype MctsState = Win | Lose | Draw | Unfinished

  /** `other` is an involution, and on the two real tags it swaps them. */
  lemma OtherInvolution(p: Player)
    ensures p.Other().Other() == p
    ensures p == FIRST || p == SECOND ==> p.Other() != p && (p.Other() == FIRST || p.Other() == SECOND)
  {
  }

  /** The stones of player `q` when `player` is to move. */
  function StonesOf(q: Player, player: Player, mask: bv64, playerBitboard: bv64): bv64 {
    if q == player then playerBitboard else OtherStones(mask, playerBitboard)
  }

  /** The player to move after `count` moves. */
  function Turn(count: nat): Player {
    if count % 2 == 0 then FIRST else SECOND
  }

  /**
   * The state update at the end of `play` (src/game.rs:48-52): a line found
   * on an unfinished game records `Win` with the (already flipped) player to
   * move; otherwise reaching 42 moves records `Draw`, even over an earlier
   * `Win`; otherwise nothing changes.
   */
  function Outcome(state: State, aligned: bool, moves: u8, player: Player): State {
    if aligned && state == State.Unfinished then State.Win(player)
    else if moves >= WIDTH * HEIGHT then State.Draw
    else state
  }

  /**
   * What `Outcome` can record: a `Win` is either kept or new, and a new one
   * needs a line on an unfinished game; a `Draw` is kept or needs 42 moves;
   * the game stays unfinished only without a line and below 42 moves.
   */
  lemma OutcomeCases(state: State, aligned: bool, moves: u8, player: Player)
    ensures var r := Outcome(state, aligned, moves, player);
            (r.Win? ==> r == state || (aligned && state == State.Unfinished && r == State.Win(player))) &&
            (r == State.Draw ==> state == State.Draw || 42 <= moves) &&
            (r == State.Unfinished ==> state == State.Unfinished && !aligned && moves < 42)
  {
  }

  /** The invariant of a game, stated on its board words, heights, player, outcome and move counter. */
  ghost predicate Consistent(mask: bv64, playerBitboard: bv64, heights: Heights, player: Player, state: State, moves: u8) {
    WellFormed(mask, playerBitboard, heights) &&
    heights.Total() == moves as int &&
    player == Turn(heights.Total()) &&
    (state == State.Unfinished ==> !HasFour(playerBitboard) && !HasFour(OtherStones(mask, playerBitboard)) && moves < 42) &&
    (state == State.Draw ==> moves == 42) &&
    (state.Win? ==> (state.p == FIRST || state.p == SECOND) &&
                    HasFour(StonesOf(state.p.Other(), player, mask, playerBitboard)))
  }

  /** A consistent game has a well-formed board. */
  lemma ConsistentWellFormed(mask: bv64, playerBitboard: bv64, heights: Heights, player: Player, state: State, moves: u8)
    requires Consistent(mask, playerBitboard, heights, player, state, moves)
    ensures WellFormed(mask, playerBitboard, heights)
  {
  }

  /** The start of a game is consistent. */
  lemma StartConsistent()
    ensures Consistent(0, 0, EMPTY, FIRST, State.Unfinished, 0)
  {
    assert EMPTY.Total() == 0;
    assert Stacked(0, EMPTY) by {
      forall column: u8 {:trigger ColumnStacked(0, column, EMPTY.At(column))} | column < WIDTH
        ensures ColumnStacked(0, column, EMPTY.At(column))
      {
      }
    }
    NoStonesNoFour();
  }

  /** An empty set of stones has no four in a row. */
  lemma NoStonesNoFour()
    ensures !HasFour(0)
  {
    forall column: u8, row: u8, d: Direction | column < WIDTH && row < HEIGHT
      ensures !FourFrom(0, column, row, d)
    {
      IndexCoordinates(column, row);
    }
  }

  /** The counter stays exact: `moves + 1` does not wrap below 42 moves. */
  lemma CountUp(moves: u8)
    requires moves as int < 42
    ensures (moves + 1) as int == moves as int + 1
  {
  }

  /** Each move hands the turn to the other player. */
  lemma TurnNext(count: nat)
    ensures Turn(count).Other() == Turn(count + 1)
  {
  }

  /** After a move the counter still counts the stones. */
  lemma StepCount(mask: bv64, playerBitboard: bv64, heights: Heights, player: Player, state: State, moves: u8, column: u8)
    requires Consistent(mask, playerBitboard, heights, player, state, moves) && column < WIDTH && heights.At(column) < HEIGHT
    ensures heights.With(column, heights.At(column) + 1).Total() == (moves + 1) as int
  {
    hide NextMask, OtherStones, Cell, ColumnStacked, Within, HasFour, Turn;
    TotalGrow(heights, column);
    TotalRoom(mask, heights, column);
    CountUp(moves);
  }

  /** After a move the player to move matches the parity of the stones. */
  lemma StepTurn(mask: bv64, playerBitboard: bv64, heights: Heights, player: Player, state: State, moves: u8, column: u8)
    requires Consistent(mask, playerBitboard, heights, player, state, moves) && column < WIDTH && heights.At(column) < HEIGHT
    ensures player.Other() == Turn(heights.With(column, heights.At(column) + 1).Total())
  {
    hide NextMask, OtherStones, Cell, Stacked, Within, HasFour, Turn, WellFormed;
    TotalGrow(heights, column);
    TurnNext(heights.Total());
  }

  /** A move that leaves the game unfinished leaves no four in a row for either player. */
  lemma StepUnfinished(mask: bv64, playerBitboard: bv64, heights: Heights, player: Player, state: State, moves: u8, column: u8)
    requires Consistent(mask, playerBitboard, heights, player, state, moves) && column < WIDTH && heights.At(column) < HEIGHT
    ensures var next := OtherStones(mask, playerBitboard);
            var aligned := HasFour(OtherStones(NextMask(mask, column), next));
            Outcome(state, aligned, moves + 1, player.Other()) == State.Unfinished ==>
              !HasFour(next) && !HasFour(OtherStones(NextMask(mask, column), next)) && moves + 1 < 42
  {
    hide NextMask, OtherStones, Cell, Stacked, Within, HasFour, Turn, WellFormed, Outcome;
    OutcomeCases(state, HasFour(OtherStones(NextMask(mask, column), OtherStones(mask, playerBitboard))), moves + 1, player.Other());
  }

  /** A move that records a draw is the 42nd. */
  lemma StepDraw(mask: bv64, playerBitboard: bv64, heights: Heights, player: Player, state: State, moves: u8, column: u8)
    requires Consistent(mask, playerBitboard, heights, player, state, moves) && column < WIDTH && heights.At(column) < HEIGHT
    ensures var next := OtherStones(mask, playerBitboard);
            var aligned := HasFour(OtherStones(NextMask(mask, column), next));
            Outcome(state, aligned, moves + 1, player.Other()) == State.Draw ==> moves + 1 == 42
  {
    hide NextMask, OtherStones, Cell, Within, HasFour, Turn, ColumnStacked, Outcome;
    OutcomeCases(state, HasFour(OtherStones(NextMask(mask, column), OtherStones(mask, playerBitboard))), moves + 1, player.Other());
    TotalRoom(mask, heights, column);
    DropStacked(mask, heights, column);
    TotalBound(NextMask(mask, column), heights.With(column, heights.At(column) + 1));
    StepCount(mask, playerBitboard, heights, player, state, moves, column);
    assert 42 <= moves + 1 ==> moves + 1 == 42;
  }

  /**
   * A move keeps the `Win` clause: a new win goes to the player now to move,
   * whose opponent has just aligned four; an old win stays witnessed because
   * the stones of each player only grow.
   */
  lemma StepWin(mask: bv64, playerBitboard: bv64, heights: Heights, player: Player, state: State, moves: u8, column: u8)
    requires Consistent(mask, playerBitboard, heights, player, state, moves) && column < WIDTH && heights.At(column) < HEIGHT
    ensures var mask' := NextMask(mask, column);
            var next := OtherStones(mask, playerBitboard);
            var state' := Outcome(state, HasFour(OtherStones(mask', next)), moves + 1, player.Other());
            state'.Win? ==> (state'.p == FIRST || state'.p == SECOND) &&
                            HasFour(StonesOf(state'.p.Other(), player.Other(), mask', next))
  {
    hide NextMask, OtherStones, Cell, Stacked, Within, HasFour, Outcome;
    var mask' := NextMask(mask, column);
    var next := OtherStones(mask, playerBitboard);
    var state' := Outcome(state, HasFour(OtherStones(mask', next)), moves + 1, player.Other());
    OutcomeCases(state, HasFour(OtherStones(mask', next)), moves + 1, player.Other());
    if state'.Win? {
      OtherInvolution(player);
      if state' == state {
        var p := state.p;
        OtherInvolution(p);
        if p.Other() == player {
          DropKeeps(playerBitboard, mask, heights, column);
          HasFourMonotone(playerBitboard, OtherStones(mask', next));
        } else {
          assert p.Other() == player.Other();
        }
      }
    }
  }

  /** One move of `play` keeps a game consistent. */
  lemma PlayStep(mask: bv64, playerBitboard: bv64, heights: Heights, player: Player, state: State, moves: u8, column: u8)
    requires Consistent(mask, playerBitboard, heights, player, state, moves) && column < WIDTH && heights.At(column) < HEIGHT
    ensures var mask' := NextMask(mask, column);
            var next := OtherStones(mask, playerBitboard);
            Consistent(mask', next, heights.With(column, heights.At(column) + 1), player.Other(),
                       Outcome(state, HasFour(OtherStones(mask', next)), moves + 1, player.Other()), moves + 1)
  {
    // The definitions named here are hidden to keep this proof cheap for the solver;
    // the facts it needs about them come from the lemmas and postconditions it calls.
    hide NextMask, OtherStones, Cell, Stacked, Within, HasFour, WellFormed, Outcome, StonesOf, Turn, Heights.Total, Heights.With, Heights.At;
    DropWellFormed(mask, playerBitboard, heights, column);
    StepCount(mask, playerBitboard, heights, player, state, moves, column);
    StepTurn(mask, playerBitboard, heights, player, state, moves, column);
    StepUnfinished(mask, playerBitboard, heights, player, state, moves, column);
    StepDraw(mask, playerBitboard, heights, player, state, moves, column);
    StepWin(mask, playerBitboard, heights, player, state, moves, column);
  }

  /** A game that may be played on meets the preconditions of the board move and stays consistent after it. */
  lemma PlayReady(g: Game, action: u8)
    requires g.Valid() && action < WIDTH && g.CanPlay(action)
    ensures g.board.Valid() && g.board.CanPlay(action)
    ensures Consistent(NextMask(g.board.mask, action), OtherStones(g.board.mask, g.board.playerBitboard),
                       g.board.heights.With(action, g.board.heights.At(action) + 1), g.player.Other(),
                       Outcome(g.state, HasFour(OtherStones(NextMask(g.board.mask, action), OtherStones(g.board.mask, g.board.playerBitboard))), g.moves + 1, g.player.Other()),
                       g.moves + 1)
  {
    // The definitions named here are hidden to keep this proof cheap for the solver;
    // the facts it needs about them come from the lemmas and postconditions it calls.
    hide Consistent, NextMask, OtherStones, Cell, Stacked, Within, HasFour, WellFormed, StonesOf, Turn, Heights.Total, Heights.With, Outcome;
    ConsistentWellFormed(g.board.mask, g.board.playerBitboard, g.board.heights, g.player, g.state, g.moves);
    PlayStep(g.board.mask, g.board.playerBitboard, g.board.heights, g.player, g.state, g.moves, action);
  }

  /** `Game` of the source: a board, the player to move, the cached outcome and the move counter. */
  class Game {
    var board: Board
    var player: Player
    var state: State
    var moves: u8

    ghost predicate Valid()
      reads this, board
    {
      Consistent(board.mask, board.playerBitboard, board.heights, player, state, moves)
    }

    /** The stones of player `q`. */
    function Stones(q: Player): bv64
      reads this, board
    {
      StonesOf(q, player, board.mask, board.playerBitboard)
    }

    /** `Game::new`: an empty board, player 1 to move, no moves, unfinished. */
    constructor ()
      ensures Valid() && fresh(board)
      ensures board.mask == 0 && board.playerBitboard == 0 && board.heights == EMPTY
      ensures player == FIRST && state == State.Unfinished && moves == 0
    {
      board := new Board();
      player := FIRST;
      state := State.Unfinished;
      moves := 0;
      StartConsistent();
    }

    /** `Game::can_play`: the column has room (any column from 7 to 9 reports room). */
    function CanPlay(action: u8): (r: bool)
      reads this, board
      requires action <= 9
      ensures Valid() && action < WIDTH ==> (r <==> board.heights.At(action) < HEIGHT)
      ensures Valid() && action >= WIDTH ==> r
    {
      board.CanPlay(action)
    }

    /** `Game::state`: the cached outcome, which agrees with the stones on the board. */
    function CurrentState(): (r: State)
      reads this, board
      ensures Valid() && r == State.Unfinished ==> !HasFour(Stones(FIRST)) && !HasFour(Stones(SECOND))
      ensures Valid() && r == State.Draw ==> board.heights.Total() == 42
      ensures Valid() && r.Win? ==> (r.p == FIRST || r.p == SECOND) && HasFour(Stones(r.p.Other()))
    {
      state
    }

    /** `player`: the player to move, fixed by the parity of the move counter. */
    function PlayerToMove(): (r: Player)
      reads this
      ensures Valid() ==> r == Turn(moves as nat) && (r == FIRST || r == SECOND)
    {
      player
    }

    /** `state(player)`: the outcome seen from `viewer`. */
    function RelativeState(viewer: Player): (r: MctsState)
      reads this
      ensures r == MctsState.Unfinished <==> state == State.Unfinished
      ensures r == MctsState.Draw <==> state == State.Draw
      ensures r == MctsState.Win <==> state == State.Win(viewer)
      ensures r == MctsState.Lose <==> state.Win? && state.p != viewer
    {
      match state
      case Unfinished => MctsState.Unfinished
      case Draw => MctsState.Draw
      case Win(p) => if p == viewer then MctsState.Win else MctsState.Lose
    }

    /** `legal_actions`: the columns with room, in increasing order. */
    method LegalActions() returns (actions: seq<u8>)
      ensures forall a: u8 :: a in actions <==> a < WIDTH && CanPlay(a)
      ensures forall i, j :: 0 <= i < j < |actions| ==> actions[i] < actions[j]
      ensures Valid() ==> forall a: u8 :: a in actions <==> a < WIDTH && board.heights.At(a) < HEIGHT
    {
      hide Board.CanPlay, TopMask, Consistent, Heights.At;
      actions := [];
      var i: u8 := 0;
      while i < WIDTH
        invariant i <= WIDTH
        invariant forall a: u8 :: a in actions <==> a < i && CanPlay(a)
        invariant forall k :: 0 <= k < |actions| ==> actions[k] < i
        invariant forall k, l :: 0 <= k < l < |actions| ==> actions[k] < actions[l]
      {
        if board.CanPlay(i) {
          actions := actions + [i];
        }
        i := i + 1;
      }
    }

    /**
     * `play`: drop a stone in `action`, count the move, hand the turn over,
     * then record `Win` for the player now to move if the mover aligned four
     * on an unfinished game, or `Draw` once 42 moves are made.
     */
    method Play(action: u8)
      modifies this, board
      requires Valid() && action < WIDTH && CanPlay(action)
      ensures Valid() && board == old(board)
      ensures board.heights == old(board.heights.With(action, board.heights.At(action) + 1))
      ensures board.mask == old(NextMask(board.mask, action))
      ensures board.playerBitboard == old(OtherStones(board.mask, board.playerBitboard))
      ensures state == Outcome(old(state), HasFour(OtherStones(board.mask, board.playerBitboard)), moves, player)
      ensures moves == old(moves) + 1
      ensures player == old(player).Other()
    {
      // The definitions named here are hidden to keep this proof cheap for the solver;
      // the facts it needs about them come from the lemmas and postconditions it calls.
      hide Consistent, NextMask, OtherStones, Cell, Stacked, Within, HasFour, WellFormed, StonesOf, Turn, Heights.Total, Heights.With, Outcome, Board.CanPlay, Game.CanPlay, TopMask, Board.Valid, Heights.At, Player.Other;
      PlayReady(this, action);
      var result := board.Play(action);
      moves := moves + 1;
      player := PlayerToMove().Other();
      state := Outcome(state, result, moves, player);
    }
  }

  /** An unfinished game always offers a move: `legal_actions` is not empty. */
  lemma UnfinishedHasMove(g: Game)
    requires g.Valid() && g.CurrentState() == State.Unfinished
    ensures exists a: u8 :: a < WIDTH && g.CanPlay(a)
  {
    hide NextMask, OtherStones, Cell, Within, HasFour, Turn, StonesOf;
    TotalBound(g.board.mask, g.board.heights);
    RoomLeft(g.board.mask, g.board.heights);
    var a: u8 :| a < WIDTH && g.board.heights.At(a) < HEIGHT;
    assert g.CanPlay(a);
  }

  /** A drawn game offers no move: every column is full. */
  lemma DrawIsFull(g: Game)
    requires g.Valid() && g.CurrentState() == State.Draw
    ensures forall a: u8 :: a < WIDTH ==> !g.CanPlay(a)
  {
    hide NextMask, OtherStones, Cell, Within, HasFour, Turn, StonesOf;
    NoRoomWhenFull(g.board.mask, g.board.heights);
  }

  /** `legal_actions` comes back empty exactly when the board holds all 42 stones. */
  lemma NoActionsIffFull(g: Game)
    requires g.Valid()
    ensures (forall a: u8 :: a < WIDTH ==> !g.CanPlay(a)) <==> g.board.heights.Total() == 42
  {
    hide NextMask, OtherStones, Cell, Within, HasFour, Turn, StonesOf;
    TotalBound(g.board.mask, g.board.heights);
    if g.board.heights.Total() < 42 {
      RoomLeft(g.board.mask, g.board.heights);
      var a: u8 :| a < WIDTH && g.board.heights.At(a) < HEIGHT;
      assert g.CanPlay(a);
    } else {
      NoRoomWhenFull(g.board.mask, g.board.heights);
    }
  }

  /** The two players see the same game: one wins exactly when the other loses. */
  lemma ViewsAgree(g: Game, viewer: Player)
    requires g.Valid() && (viewer == FIRST || viewer == SECOND)
    ensures g.RelativeState(viewer) == MctsState.Win <==> g.RelativeState(viewer.Other()) == MctsState.Lose
    ensures g.RelativeState(viewer) == MctsState.Lose <==> g.RelativeState(viewer.Other()) == MctsState.Win
    ensures g.RelativeState(viewer) == MctsState.Draw <==> g.RelativeState(viewer.Other()) == MctsState.Draw
  {
    hide NextMask, OtherStones, Cell, Within, HasFour, Turn, StonesOf, WellFormed;
    OtherInvolution(viewer);
  }

  /**
   * The tag of `Win` names the player to move after the winning line, so the
   * viewer told `Win` is the one whose opponent has four in a row.
   */
  lemma WinnerOpponentAligned(g: Game, viewer: Player)
    requires g.Valid() && g.RelativeState(viewer) == MctsState.Win
    ensures HasFour(g.Stones(viewer.Other()))
  {
    hide NextMask, OtherStones, Cell, Within, HasFour, Turn, StonesOf, WellFormed;
  }

  /** The stone sets met in the opening below: none holds a line except the last. */
  lemma OpeningLines()
    ensures !HasFour(0x1) && !HasFour(0x80) && !HasFour(0x3) && !HasFour(0x180)
    ensures !HasFour(0x7) && !HasFour(0x380) && HasFour(0xF)
  {
    AlignedIffHasFour(0x1);
    AlignedIffHasFour(0x80);
    AlignedIffHasFour(0x3);
    AlignedIffHasFour(0x180);
    AlignedIffHasFour(0x7);
    AlignedIffHasFour(0x380);
    AlignedIffHasFour(0xF);
  }

  /**
   * The opening 0, 1, 0, 1, 0, 1, 0 from a new game: with the seventh stone
   * player 1 completes a vertical line in column 0. Because the tag is taken
   * after the flip, the game records `Win(2)`, so player 1 sees `Lose` and
   * player 2 sees `Win`.
   */
  method VerticalWinOpening() returns (first: MctsState, second: MctsState)
    ensures first == MctsState.Lose && second == MctsState.Win
  {
    OpeningLines();
    hide Consistent, Stacked, WellFormed, Within, StonesOf, Turn, Heights.Total, Board.CanPlay, HasFour;
    var g := new Game();
    g.Play(0);
    assert g.board.mask == 0x1 && g.board.playerBitboard == 0 && g.state == State.Unfinished;
    g.Play(1);
    assert g.board.mask == 0x81 && g.board.playerBitboard == 0x1 && g.state == State.Unfinished;
    g.Play(0);
    assert g.board.mask == 0x83 && g.board.playerBitboard == 0x80 && g.state == State.Unfinished;
    g.Play(1);
    assert g.board.mask == 0x183 && g.board.playerBitboard == 0x3 && g.state == State.Unfinished;
    g.Play(0);
    assert g.board.mask == 0x187 && g.board.playerBitboard == 0x180 && g.state == State.Unfinished;
    g.Play(1);
    assert g.board.mask == 0x387 && g.board.playerBitboard == 0x7 && g.state == State.Unfinished;
    g.Play(0);
    assert g.board.mask == 0x38F && g.board.playerBitboard == 0x380 && g.state == State.Win(SECOND);
    first := g.RelativeState(FIRST);
    second := g.RelativeState(SECOND);
  }
}
