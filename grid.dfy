/**
 * The value types of the game (players, moves, coordinates) and the
 * board-level functions the engine is specified by: where a move lands,
 * when a winning line is complete and which line a scan reports first.
 */
module Grid {
  import opened Wrappers

  /**
   * A player. Only its label takes part in the game; the colour is display
   * only. The label is the field `mark`, because `label` is a reserved word
   * in Dafny; everywhere else "label" and "mark" name the same string.
   */
  datatype Player = Player(mark: string)

  /** A move: a cell and the label (`mark`) of the player who took it ("" = not taken). */
  datatype Move = Move(row: int, col: int, mark: string)

  /** A cell coordinate (row, column). */
  type Coord = (int, int)

  /** The grid of moves, indexed by row, then column. */
  type Board = seq<seq<Move>>

  /** The board is n rows of n cells each. */
  predicate IsSquare(board: Board, n: nat) {
    |board| == n && forall r :: 0 <= r < n ==> |board[r]| == n
  }

  /** Every cell records its own coordinates. */
  predicate WellPlaced(board: Board) {
    forall r, c :: 0 <= r < |board| && 0 <= c < |board[r]| ==>
      board[r][c].row == r && board[r][c].col == c
  }

  /** p lies in [0, n) x [0, n). */
  predicate InRange(p: Coord, n: nat) {
    0 <= p.0 < n && 0 <= p.1 < n
  }

  predicate OnBoard(board: Board, p: Coord) {
    0 <= p.0 < |board| && 0 <= p.1 < |board[p.0]|
  }

  function LabelAt(board: Board, p: Coord): string
    requires OnBoard(board, p)
  {
    board[p.0][p.1].mark
  }

  /** Every cell of the board carries a non-empty label. */
  predicate Full(board: Board) {
    forall r, c :: 0 <= r < |board| && 0 <= c < |board[r]| ==> board[r][c].mark != ""
  }

  /** The board every game epoch starts from: cell (r, c) holds Move(r, c, ""). */
  function EmptyBoard(n: nat): (b: Board)
    ensures IsSquare(b, n) && WellPlaced(b)
    ensures forall r, c :: 0 <= r < n && 0 <= c < n ==> b[r][c] == Move(r, c, "")
  {
    seq(n, r => seq(n, c => Move(r, c, "")))
  }

  /**
   * The board after `move` is written at its own coordinates: that one cell
   * now holds `move`, every other cell and the shape are as before.
   */
  function Place(board: Board, move: Move): (b: Board)
    requires OnBoard(board, (move.row, move.col))
    ensures |b| == |board| && forall r :: 0 <= r < |b| ==> |b[r]| == |board[r]|
    ensures b[move.row][move.col] == move
    ensures forall r, c :: 0 <= r < |b| && 0 <= c < |b[r]| && (r, c) != (move.row, move.col) ==>
      b[r][c] == board[r][c]
  {
    board[move.row := board[move.row][move.col := move]]
  }

  /** Writing an in-range move keeps an n x n board square and every cell at its own coordinates. */
  lemma PlaceKeepsShape(board: Board, n: nat, move: Move)
    requires IsSquare(board, n) && WellPlaced(board) && InRange((move.row, move.col), n)
    ensures IsSquare(Place(board, move), n) && WellPlaced(Place(board, move))
  {
  }

  predicate ComboOnBoard(board: Board, combo: seq<Coord>) {
    forall j :: 0 <= j < |combo| ==> OnBoard(board, combo[j])
  }

  predicate CombosOnBoard(board: Board, combos: seq<seq<Coord>>) {
    forall k :: 0 <= k < |combos| ==> ComboOnBoard(board, combos[k])
  }

  /** Whether combos can be looked up depends only on the board's shape. */
  lemma CombosOnSquareBoard(board: Board, other: Board, n: nat, combos: seq<seq<Coord>>)
    requires IsSquare(board, n) && IsSquare(other, n) && CombosOnBoard(board, combos)
    ensures CombosOnBoard(other, combos)
  {
    forall k, j | 0 <= k < |combos| && 0 <= j < |combos[k]|
      ensures OnBoard(other, combos[k][j])
    {
      assert OnBoard(board, combos[k][j]);
    }
  }

  /** The set of distinct labels found along a combo. */
  function ComboLabels(board: Board, combo: seq<Coord>): set<string>
    requires ComboOnBoard(board, combo)
  {
    set j | 0 <= j < |combo| :: LabelAt(board, combo[j])
  }

  /**
   * The engine's win test for one combo: the labels along it collapse to a
   * single value, and that value is not the empty label.
   */
  predicate ComboWon(board: Board, combo: seq<Coord>)
    requires ComboOnBoard(board, combo)
  {
    var results := ComboLabels(board, combo);
    |results| == 1 && "" !in results
  }

  /** Reference reading of a won line: non-empty, and every cell carries the first cell's non-empty label. */
  predicate SameLabelAlong(board: Board, combo: seq<Coord>)
    requires ComboOnBoard(board, combo)
  {
    |combo| > 0 && LabelAt(board, combo[0]) != "" &&
    forall j :: 0 <= j < |combo| ==> LabelAt(board, combo[j]) == LabelAt(board, combo[0])
  }

  /** The set-collapse test and the reference reading agree on every combo. */
  lemma ComboWonIff(board: Board, combo: seq<Coord>)
    requires ComboOnBoard(board, combo)
    ensures ComboWon(board, combo) <==> SameLabelAlong(board, combo)
  {
    var results := ComboLabels(board, combo);
    if ComboWon(board, combo) {
      assert |combo| == 0 ==> results == {};
      var first := LabelAt(board, combo[0]);
      assert first in results;
      assert |results - {first}| == 0;
      forall j | 0 <= j < |combo|
        ensures LabelAt(board, combo[j]) == first
      {
        var l := LabelAt(board, combo[j]);
        assert l in results;
        assert l == first || l in results - {first};
      }
    }
    if SameLabelAlong(board, combo) {
      var first := LabelAt(board, combo[0]);
      assert first in results;
      assert results == {first};
    }
  }

  /** A combo that crosses a cell with the empty label is not won. */
  lemma NotWonThroughEmptyCell(board: Board, combo: seq<Coord>, j: nat)
    requires ComboOnBoard(board, combo)
    requires j < |combo| && LabelAt(board, combo[j]) == ""
    ensures !ComboWon(board, combo)
  {
    assert "" in ComboLabels(board, combo);
  }

  /**
   * The short-circuiting scan: the first combo, in the given order, whose
   * cells carry one common non-empty label, or None when there is none.
   */
  function FirstWin(board: Board, combos: seq<seq<Coord>>): (r: Option<seq<Coord>>)
    requires CombosOnBoard(board, combos)
    ensures r.None? <==> forall k :: 0 <= k < |combos| ==> !ComboWon(board, combos[k])
    ensures r.Some? ==> exists i :: (0 <= i < |combos| && combos[i] == r.value &&
      ComboWon(board, combos[i]) && forall k :: 0 <= k < i ==> !ComboWon(board, combos[k]))
    decreases |combos|
  {
    if |combos| == 0 then None
    else if ComboWon(board, combos[0]) then Some(combos[0])
    else
      var rest := FirstWin(board, combos[1..]);
      assert forall k :: 1 <= k < |combos| ==> combos[k] == combos[1..][k - 1];
      rest
  }

  /** If combo i is won and none before it is, the scan reports combo i. */
  lemma FirstWinAt(board: Board, combos: seq<seq<Coord>>, i: nat)
    requires CombosOnBoard(board, combos)
    requires i < |combos| && ComboWon(board, combos[i])
    requires forall k :: 0 <= k < i ==> !ComboWon(board, combos[k])
    ensures FirstWin(board, combos) == Some(combos[i])
  {
    var r := FirstWin(board, combos);
    assert r.Some?;
    var i' :| 0 <= i' < |combos| && combos[i'] == r.value &&
      ComboWon(board, combos[i']) && forall k :: 0 <= k < i' ==> !ComboWon(board, combos[k]);
    assert i' == i;
  }

  /** On the empty board no combo is won, whatever lines of an n x n board are scanned. */
  lemma NoWinOnEmptyBoard(n: nat, combos: seq<seq<Coord>>)
    requires CombosOnBoard(EmptyBoard(n), combos)
    ensures FirstWin(EmptyBoard(n), combos) == None
  {
    var b := EmptyBoard(n);
    forall k | 0 <= k < |combos|
      ensures !ComboWon(b, combos[k])
    {
      ComboWonIff(b, combos[k]);
    }
  }

  /**
   * A square board whose every cell (i, j) holds Move(i, j, "") is the empty
   * board, and no line of it is won.
   */
  lemma ClearedBoardIsEmpty(board: Board, n: nat, combos: seq<seq<Coord>>)
    requires IsSquare(board, n) && CombosOnBoard(board, combos)
    requires forall i, j :: 0 <= i < n && 0 <= j < n ==> board[i][j] == Move(i, j, "")
    ensures board == EmptyBoard(n) && WellPlaced(board)
    ensures FirstWin(board, combos) == None
  {
    assert forall i :: 0 <= i < n ==> board[i] == EmptyBoard(n)[i];
    NoWinOnEmptyBoard(n, combos);
  }

  /**
   * A line that was not won before a move and is won after it runs through
   * the moved cell, and every cell along it carries the mover's label.
   */
  lemma WinPassesThroughMove(board: Board, combo: seq<Coord>, move: Move)
    requires OnBoard(board, (move.row, move.col))
    requires ComboOnBoard(board, combo) && ComboOnBoard(Place(board, move), combo)
    requires !ComboWon(board, combo) && ComboWon(Place(board, move), combo)
    ensures exists j :: 0 <= j < |combo| && combo[j] == (move.row, move.col)
    ensures forall j :: 0 <= j < |combo| ==> LabelAt(Place(board, move), combo[j]) == move.mark
  {
    var after := Place(board, move);
    var p := (move.row, move.col);
    if forall j :: 0 <= j < |combo| ==> combo[j] != p {
      assert ComboLabels(after, combo) == ComboLabels(board, combo) by {
        forall j | 0 <= j < |combo| ensures LabelAt(after, combo[j]) == LabelAt(board, combo[j]) {
        }
      }
      assert false;
    }
    var j0 :| 0 <= j0 < |combo| && combo[j0] == p;
    ComboWonIff(after, combo);
    assert LabelAt(after, combo[j0]) == move.mark;
  }

  /** The board shape Place keeps means every combo on the board stays on it. */
  lemma PlaceKeepsCombosOnBoard(board: Board, combos: seq<seq<Coord>>, move: Move)
    requires OnBoard(board, (move.row, move.col)) && CombosOnBoard(board, combos)
    ensures CombosOnBoard(Place(board, move), combos)
  {
    var after := Place(board, move);
    forall k, j | 0 <= k < |combos| && 0 <= j < |combos[k]|
      ensures OnBoard(after, combos[k][j])
    {
      assert OnBoard(board, combos[k][j]);
    }
  }

  /**
   * Starting from a board with no won line, if the scan after a move finds a
   * line, that line runs through the moved cell and carries the mover's label.
   */
  lemma OnlyTheMoverCanWin(board: Board, combos: seq<seq<Coord>>, move: Move)
    requires OnBoard(board, (move.row, move.col)) && CombosOnBoard(board, combos)
    requires FirstWin(board, combos) == None
    ensures CombosOnBoard(Place(board, move), combos)
    ensures var w := FirstWin(Place(board, move), combos);
      w.Some? ==>
        (exists j :: 0 <= j < |w.value| && w.value[j] == (move.row, move.col)) &&
        forall j :: 0 <= j < |w.value| ==> LabelAt(Place(board, move), w.value[j]) == move.mark
  {
    PlaceKeepsCombosOnBoard(board, combos, move);
    var w := FirstWin(Place(board, move), combos);
    if w.Some? {
      var i :| 0 <= i < |combos| && combos[i] == w.value && ComboWon(Place(board, move), combos[i]);
      WinPassesThroughMove(board, combos[i], move);
    }
  }
}
