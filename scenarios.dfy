/**
 * Two concrete 3 x 3 games: a win along the top row, and a full board
 * without a complete line.
 */
module Scenarios {
  import opened Wrappers
  import opened Grid
  import opened WinPatterns

  /** The three rows of the 3 x 3 board come first. */
  lemma ThreeByThreeRows()
    ensures var w := WinningCombos(3);
      w[0] == [(0, 0), (0, 1), (0, 2)] && w[1] == [(1, 0), (1, 1), (1, 2)] &&
      w[2] == [(2, 0), (2, 1), (2, 2)]
  {
    WinningCombosLayout(3);
  }

  /** The three columns of the 3 x 3 board come next. */
  lemma ThreeByThreeColumns()
    ensures var w := WinningCombos(3);
      w[3] == [(0, 0), (1, 0), (2, 0)] && w[4] == [(0, 1), (1, 1), (2, 1)] &&
      w[5] == [(0, 2), (1, 2), (2, 2)]
  {
    WinningCombosLayout(3);
  }

  /** The two diagonals of the 3 x 3 board come last. */
  lemma ThreeByThreeDiagonals()
    ensures var w := WinningCombos(3);
      w[6] == [(0, 0), (1, 1), (2, 2)] && w[7] == [(0, 2), (1, 1), (2, 0)]
  {
    WinningCombosLayout(3);
  }

  /** The eight winning lines of the 3 x 3 board, written out. */
  lemma ThreeByThreeCombos()
    ensures WinningCombos(3) == [
      [(0, 0), (0, 1), (0, 2)], [(1, 0), (1, 1), (1, 2)], [(2, 0), (2, 1), (2, 2)],
      [(0, 0), (1, 0), (2, 0)], [(0, 1), (1, 1), (2, 1)], [(0, 2), (1, 2), (2, 2)],
      [(0, 0), (1, 1), (2, 2)], [(0, 2), (1, 1), (2, 0)]]
  {
    ThreeByThreeRows();
    ThreeByThreeColumns();
    ThreeByThreeDiagonals();
  }

  /** A 3 x 3 board given by its nine labels in row-major order. */
  function Grid3(labels: seq<string>): (b: Board)
    requires |labels| == 9
    ensures IsSquare(b, 3) && WellPlaced(b)
    ensures forall r, c :: 0 <= r < 3 && 0 <= c < 3 ==> b[r][c].mark == labels[3 * r + c]
  {
    seq(3, r requires 0 <= r < 3 => seq(3, c requires 0 <= c < 3 => Move(r, c, labels[3 * r + c])))
  }

  /** A line along which two cells carry different labels is not won. */
  lemma MixedMarksBlockWin(board: Board, combo: seq<Coord>, i: nat, j: nat)
    requires ComboOnBoard(board, combo) && i < |combo| && j < |combo|
    requires LabelAt(board, combo[i]) != LabelAt(board, combo[j])
    ensures !ComboWon(board, combo)
  {
    ComboWonIff(board, combo);
  }

  /** A 3 x 3 board whose cells (0,2), (1,2) and the bottom row are free has no complete line. */
  lemma NoWinWhileLinesOpen(b: Board)
    requires IsSquare(b, 3)
    requires b[0][2].mark == "" && b[1][2].mark == ""
    requires b[2][0].mark == "" && b[2][1].mark == "" && b[2][2].mark == ""
    ensures CombosOnBoard(b, WinningCombos(3))
    ensures forall k :: 0 <= k < 8 ==> !ComboWon(b, WinningCombos(3)[k])
  {
    var combos := WinningCombos(3);
    WinningCombosLayout(3);
    WinningCombosOnBoard(b, 3);
    forall k | 0 <= k < |combos|
      ensures !ComboWon(b, combos[k])
    {
      var j := if k == 2 || k == 5 || k == 7 then 0 else 2;
      NotWonThroughEmptyCell(b, combos[k], j);
    }
  }

  /** On a 3 x 3 board whose top row is all X, the first line scanned, the top row, is won. */
  lemma TopRowWon(b: Board)
    requires IsSquare(b, 3)
    requires b[0][0].mark == "X" && b[0][1].mark == "X" && b[0][2].mark == "X"
    ensures CombosOnBoard(b, WinningCombos(3)) && ComboWon(b, WinningCombos(3)[0])
  {
    WinningCombosLayout(3);
    WinningCombosOnBoard(b, 3);
    ComboWonIff(b, WinningCombos(3)[0]);
  }

  /** Writing a move on a 3 x 3 board of labels replaces the one label at its cell. */
  lemma PlaceOnGrid3(labels: seq<string>, r: nat, c: nat, x: string, next: seq<string>)
    requires |labels| == 9 && r < 3 && c < 3
    requires next == labels[3 * r + c := x]
    ensures Place(Grid3(labels), Move(r, c, x)) == Grid3(next)
  {
    var before := Grid3(labels);
    var after := Place(before, Move(r, c, x));
    var expected := Grid3(next);
    forall i | 0 <= i < 3
      ensures after[i] == expected[i]
    {
      forall j | 0 <= j < 3
        ensures after[i][j] == expected[i][j]
      {
        if (i, j) != (r, c) {
          assert 3 * i + j != 3 * r + c;
        }
      }
    }
  }

  /** The empty 3 x 3 board is the board of nine empty labels. */
  lemma EmptyGrid3()
    ensures EmptyBoard(3) == Grid3(["", "", "", "", "", "", "", "", ""])
  {
    var e := Grid3(["", "", "", "", "", "", "", "", ""]);
    forall i | 0 <= i < 3
      ensures EmptyBoard(3)[i] == e[i]
    {
      assert forall j :: 0 <= j < 3 ==> EmptyBoard(3)[i][j] == e[i][j];
    }
  }

  /**
   * The first game: X at (0,0), O at (1,1), X at (0,1), O at (1,0), X at
   * (0,2), starting from the empty board. Each call gives the board after
   * one more move, as nine labels in row-major order.
   */
  lemma TopRowGameBoards()
    ensures EmptyBoard(3) == Grid3(["", "", "", "", "", "", "", "", ""])
    ensures Place(Grid3(["", "", "", "", "", "", "", "", ""]), Move(0, 0, "X")) ==
      Grid3(["X", "", "", "", "", "", "", "", ""])
    ensures Place(Grid3(["X", "", "", "", "", "", "", "", ""]), Move(1, 1, "O")) ==
      Grid3(["X", "", "", "", "O", "", "", "", ""])
    ensures Place(Grid3(["X", "", "", "", "O", "", "", "", ""]), Move(0, 1, "X")) ==
      Grid3(["X", "X", "", "", "O", "", "", "", ""])
    ensures Place(Grid3(["X", "X", "", "", "O", "", "", "", ""]), Move(1, 0, "O")) ==
      Grid3(["X", "X", "", "O", "O", "", "", "", ""])
    ensures Place(Grid3(["X", "X", "", "O", "O", "", "", "", ""]), Move(0, 2, "X")) ==
      Grid3(["X", "X", "X", "O", "O", "", "", "", ""])
  {
    EmptyGrid3();
    PlaceOnGrid3(["", "", "", "", "", "", "", "", ""], 0, 0, "X",
      ["X", "", "", "", "", "", "", "", ""]);
    PlaceOnGrid3(["X", "", "", "", "", "", "", "", ""], 1, 1, "O",
      ["X", "", "", "", "O", "", "", "", ""]);
    PlaceOnGrid3(["X", "", "", "", "O", "", "", "", ""], 0, 1, "X",
      ["X", "X", "", "", "O", "", "", "", ""]);
    PlaceOnGrid3(["X", "X", "", "", "O", "", "", "", ""], 1, 0, "O",
      ["X", "X", "", "O", "O", "", "", "", ""]);
    PlaceOnGrid3(["X", "X", "", "O", "O", "", "", "", ""], 0, 2, "X",
      ["X", "X", "X", "O", "O", "", "", "", ""]);
  }

  /**
   * In the first game no line is won before the fifth move, the fifth move's
   * cell is still free, and after it the scan reports the top row.
   */
  lemma TopRowScenario()
    ensures var b4 := Grid3(["X", "X", "", "O", "O", "", "", "", ""]);
      b4[0][2].mark == "" &&
      CombosOnBoard(b4, WinningCombos(3)) && FirstWin(b4, WinningCombos(3)) == None
    ensures var b5 := Grid3(["X", "X", "X", "O", "O", "", "", "", ""]);
      CombosOnBoard(b5, WinningCombos(3)) &&
      FirstWin(b5, WinningCombos(3)) == Some([(0, 0), (0, 1), (0, 2)])
  {
    var b4 := Grid3(["X", "X", "", "O", "O", "", "", "", ""]);
    var b5 := Grid3(["X", "X", "X", "O", "O", "", "", "", ""]);
    NoWinWhileLinesOpen(b4);
    TopRowWon(b5);
    FirstWinAt(b5, WinningCombos(3), 0);
    ThreeByThreeRows();
  }

  /** The full board X O X / X O O / O X X has no complete line: a tie. */
  lemma TieScenario()
    ensures var b := Grid3(["X", "O", "X", "X", "O", "O", "O", "X", "X"]);
      Full(b) && CombosOnBoard(b, WinningCombos(3)) && FirstWin(b, WinningCombos(3)) == None
  {
    var combos := WinningCombos(3);
    ThreeByThreeCombos();
    var b := Grid3(["X", "O", "X", "X", "O", "O", "O", "X", "X"]);
    WinningCombosOnBoard(b, 3);
    forall k | 0 <= k < |combos|
      ensures !ComboWon(b, combos[k])
    {
      // two cells of each line that carry different labels
      var j := if k == 3 || k == 4 then 2 else 1;
      MixedMarksBlockWin(b, combos[k], 0, j);
    }
  }
}
