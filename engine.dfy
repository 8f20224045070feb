/**
 * The game engine: it owns the board, the turn pointer and the winner
 * record, validates and applies moves, detects a tie and resets the board
 * for a new epoch while leaving the turn pointer where it is.
 */
module Engine {
  import opened Wrappers
  import opened Grid
  import opened WinPatterns

  /** The players a game gets when none are given: "X" first, then "O". */
  function DefaultPlayers(): (ps: seq<Player>)
    ensures |ps| == 2 && ps[0].mark == "X" && ps[1].mark == "O"
  {
    [Player("X"), Player("O")]
  }

  /** The cyclic turn advance: the next index, wrapping from the last back to the first. */
  function NextIndex(i: nat, count: nat): (j: nat)
    requires i < count
    ensures j < count
    ensures i + 1 < count ==> j == i + 1
    ensures i + 1 == count ==> j == 0
  {
    (i + 1) % count
  }

  class TicTacToeGame {
    /** The players, fixed for the game's lifetime. */
    const players: seq<Player>
    const boardSize: nat
    /** The winning lines, computed once from the initial board. */
    const winningCombos: seq<seq<Coord>>
    /** Index into players of the player whose turn it is (the cycling iterator). */
    var current: nat
    var moves: Board
    var hasWinner: bool
    var winnerCombo: seq<Coord>

    /**
     * The object invariant: an n x n board whose cells carry their own
     * coordinates, the winning lines of an n x n board, and a winner record
     * that is exactly what the scan reports on the current board.
     */
    ghost predicate Valid()
      reads this
    {
      |players| > 0 && current < |players| &&
      IsSquare(moves, boardSize) && WellPlaced(moves) &&
      |winningCombos| == 2 * boardSize + 2 &&
      CombosOnBoard(moves, winningCombos) &&
      hasWinner == FirstWin(moves, winningCombos).Some? &&
      winnerCombo == (if hasWinner then FirstWin(moves, winningCombos).value else [])
    }

    /**
     * A new game, 3 x 3 unless another size is given. An empty list of
     * players (the default) means the default pair; the
     * first player is to move, every cell (r, c) holds Move(r, c, "") and
     * nobody has won.
     */
    constructor (playersArg: seq<Player> := [], size: nat := 3)
      ensures Valid()
      ensures players == (if playersArg == [] then DefaultPlayers() else playersArg)
      ensures current == 0 && CurrentPlayer() == players[0]
      ensures boardSize == size && IsSquare(moves, size)
      ensures forall r, c :: 0 <= r < size && 0 <= c < size ==> moves[r][c] == Move(r, c, "")
      ensures !hasWinner && winnerCombo == []
      ensures winningCombos == WinningCombos(size)
    {
      players := if playersArg == [] then DefaultPlayers() else playersArg;
      current := 0;
      boardSize := size;
      winnerCombo := [];
      var board := EmptyBoard(size);
      moves := board;
      hasWinner := false;
      winningCombos := CombosOf(board);
      new;
      WinningCombosOnBoard(moves, boardSize);
      NoWinOnEmptyBoard(boardSize, winningCombos);
    }

    /** The player whose turn it is. */
    function CurrentPlayer(): (p: Player)
      reads this
      requires Valid()
      ensures p in players
    {
      players[current]
    }

    /** Passes the turn to the next player in the list, wrapping after the last. */
    method TogglePlayer()
      requires Valid()
      modifies this`current
      ensures Valid()
      ensures current == NextIndex(old(current), |players|)
    {
      current := NextIndex(current, |players|);
    }

    /**
     * A move may be played when no line on the board is won yet and its
     * target cell is still unoccupied.
     */
    function IsValidMove(move: Move): (r: bool)
      reads this
      requires Valid()
      requires InRange((move.row, move.col), boardSize)
      ensures r <==> (forall k :: 0 <= k < |winningCombos| ==> !ComboWon(moves, winningCombos[k])) &&
                     moves[move.row][move.col].mark == ""
    {
      var noWinner := !hasWinner;
      var moveWasNotPlayed := moves[move.row][move.col].mark == "";
      noWinner && moveWasNotPlayed
    }

    /**
     * Writes a validated move into its cell, then scans the winning lines in
     * order and records the first one whose cells share one non-empty label.
     * Nothing else on the board changes, and a move that completes a line
     * completes it through its own cell with its own label.
     */
    method ProcessMove(move: Move)
      requires Valid()
      requires InRange((move.row, move.col), boardSize)
      requires IsValidMove(move)
      modifies this`moves, this`hasWinner, this`winnerCombo
      ensures Valid()
      ensures moves == Place(old(moves), move)
      ensures var w := FirstWin(moves, winningCombos);
        (w.Some? ==> hasWinner && winnerCombo == w.value) &&
        (w.None? ==> hasWinner == old(hasWinner) && winnerCombo == old(winnerCombo))
      ensures hasWinner ==>
        (exists j :: 0 <= j < |winnerCombo| && winnerCombo[j] == (move.row, move.col)) &&
        forall j :: 0 <= j < |winnerCombo| ==> LabelAt(moves, winnerCombo[j]) == move.mark
    {
      ghost var before := moves;
      var board := Place(moves, move);
      moves := board;
      PlaceKeepsShape(before, boardSize, move);
      OnlyTheMoverCanWin(before, winningCombos, move);
      var i := 0;
      while i < |winningCombos|
        invariant 0 <= i <= |winningCombos|
        invariant moves == board
        invariant !hasWinner && winnerCombo == []
        invariant forall k :: 0 <= k < i ==> !ComboWon(board, winningCombos[k])
      {
        var combo := winningCombos[i];
        var results := ComboLabels(board, combo);
        var isWin := |results| == 1 && "" !in results;
        if isWin {
          hasWinner := true;
          winnerCombo := combo;
          FirstWinAt(board, winningCombos, i);
          break;
        }
        i := i + 1;
      }
    }

    /** The recorded winner flag: some winning line on the board is complete. */
    function HasWinner(): (r: bool)
      reads this
      requires Valid()
      ensures r <==> exists k :: 0 <= k < |winningCombos| && ComboWon(moves, winningCombos[k])
    {
      hasWinner
    }

    /** A tie: no winning line is complete and every cell is occupied. */
    function IsTied(): (r: bool)
      reads this
      requires Valid()
      ensures r <==> (forall k :: 0 <= k < |winningCombos| ==> !ComboWon(moves, winningCombos[k])) &&
                     Full(moves)
      ensures r ==> !HasWinner()
    {
      var noWinner := !hasWinner;
      noWinner && Full(moves)
    }

    /**
     * Starts a new epoch: every cell (r, c) becomes Move(r, c, "") and the
     * winner record is cleared; the turn pointer, the players and the
     * winning lines stay as they are.
     */
    method ResetGame()
      requires Valid()
      modifies this`moves, this`hasWinner, this`winnerCombo
      ensures Valid()
      ensures moves == EmptyBoard(boardSize)
      ensures !hasWinner && winnerCombo == []
      ensures current == old(current)
    {
      var board := moves;
      var r := 0;
      while r < |board|
        invariant 0 <= r <= boardSize
        invariant IsSquare(board, boardSize)
        invariant forall i, j :: 0 <= i < r && 0 <= j < boardSize ==> board[i][j] == Move(i, j, "")
      {
        var rowContent := board[r];
        var c := 0;
        while c < |rowContent|
          invariant 0 <= c <= |rowContent| == boardSize
          invariant forall j :: 0 <= j < c ==> rowContent[j] == Move(r, j, "")
        {
          rowContent := rowContent[c := Move(r, c, "")];
          c := c + 1;
        }
        board := board[r := rowContent];
        r := r + 1;
      }
      CombosOnSquareBoard(moves, board, boardSize, winningCombos);
      ClearedBoardIsEmpty(board, boardSize, winningCombos);
      moves := board;
      hasWinner := false;
      winnerCombo := [];
    }
  }
}
