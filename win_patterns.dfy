/**
 * The winning lines of an n x n board, built the way the engine builds
 * them from its freshly created board: the coordinates of each row, the
 * columns as the transpose of the rows, the main diagonal read off the
 * rows, and the second diagonal read off the columns in reverse order.
 */
module WinPatterns {
  import opened Grid

  /** Each row of the board as the list of its cells' coordinates. */
  function RowsOf(board: Board): (rows: seq<seq<Coord>>)
    ensures |rows| == |board|
    ensures forall r :: 0 <= r < |rows| ==> |rows[r]| == |board[r]|
    ensures forall r, c :: 0 <= r < |rows| && 0 <= c < |rows[r]| ==>
      rows[r][c] == (board[r][c].row, board[r][c].col)
  {
    seq(|board|, r requires 0 <= r < |board| =>
      seq(|board[r]|, c requires 0 <= c < |board[r]| => (board[r][c].row, board[r][c].col)))
  }

  /** All rows have the same length. */
  predicate Rectangular(rows: seq<seq<Coord>>) {
    forall r :: 0 <= r < |rows| ==> |rows[r]| == |rows[0]|
  }

  /** Transposition, as zip over the rows: column c gathers entry c of every row. */
  function Transpose(rows: seq<seq<Coord>>): (cols: seq<seq<Coord>>)
    requires Rectangular(rows)
    ensures |rows| == 0 ==> cols == []
    ensures |rows| > 0 ==> |cols| == |rows[0]|
    ensures forall c :: 0 <= c < |cols| ==> |cols[c]| == |rows|
    ensures forall c, r :: 0 <= c < |cols| && 0 <= r < |rows| ==> cols[c][r] == rows[r][c]
  {
    if |rows| == 0 then
      []
    else
      seq(|rows[0]|, c requires 0 <= c < |rows[0]| =>
        seq(|rows|, r requires 0 <= r < |rows| => rows[r][c]))
  }

  /** The same sequence, back to front. */
  function Reverse<T>(s: seq<T>): (t: seq<T>)
    ensures |t| == |s|
    ensures forall i :: 0 <= i < |t| ==> t[i] == s[|s| - 1 - i]
  {
    seq(|s|, i requires 0 <= i < |s| => s[|s| - 1 - i])
  }

  /** Entry i of line i, for every line i: the diagonal of a square grid of coordinates. */
  function Diagonal(lines: seq<seq<Coord>>): (d: seq<Coord>)
    requires forall i :: 0 <= i < |lines| ==> |lines[i]| > i
    ensures |d| == |lines|
  {
    seq(|lines|, i requires 0 <= i < |lines| => lines[i][i])
  }

  /**
   * The combos of a square board, as coordinates read off its cells: its
   * rows, its columns, the main diagonal, then the diagonal from the top
   * right corner down to the bottom left one. An n x n board gives 2n + 2
   * lines of n cells each.
   */
  function CombosOf(board: Board): (combos: seq<seq<Coord>>)
    requires IsSquare(board, |board|)
    ensures var n := |board|;
      |combos| == 2 * n + 2 && forall k :: 0 <= k < |combos| ==> |combos[k]| == n
  {
    var rows := RowsOf(board);
    var columns := Transpose(rows);
    var firstDiagonal := Diagonal(rows);
    var secondDiagonal := Diagonal(Reverse(columns));
    rows + columns + [firstDiagonal, secondDiagonal]
  }

  /** The winning lines of an n x n board: 2n + 2 combos of n cells each. */
  function WinningCombos(n: nat): (combos: seq<seq<Coord>>)
    ensures |combos| == 2 * n + 2
    ensures forall k :: 0 <= k < |combos| ==> |combos[k]| == n
  {
    CombosOf(EmptyBoard(n))
  }

  /**
   * The order and the coordinates of the winning lines: n rows, n columns,
   * the main diagonal (i, i), then the second diagonal (j, n - 1 - j).
   */
  lemma WinningCombosLayout(n: nat)
    ensures var combos := WinningCombos(n);
      (forall k, j :: 0 <= k < n && 0 <= j < n ==> combos[k][j] == (k, j)) &&
      (forall k, j :: n <= k < 2 * n && 0 <= j < n ==> combos[k][j] == (j, k - n)) &&
      (var d := combos[2 * n]; forall j :: 0 <= j < n ==> d[j] == (j, j)) &&
      (var d := combos[2 * n + 1]; forall j :: 0 <= j < n ==> d[j] == (j, n - 1 - j))
  {
    var rows := RowsOf(EmptyBoard(n));
    var columns := Transpose(rows);
    assert WinningCombos(n) == rows + columns + [Diagonal(rows), Diagonal(Reverse(columns))];
  }

  /** Every coordinate of every winning line lies on the board. */
  lemma WinningCombosInRange(n: nat)
    ensures forall k, j :: 0 <= k < 2 * n + 2 && 0 <= j < n ==> InRange(WinningCombos(n)[k][j], n)
  {
    WinningCombosLayout(n);
  }

  /** No winning line visits a cell twice. */
  lemma WinningCombosDistinct(n: nat)
    ensures forall k, i, j :: 0 <= k < 2 * n + 2 && 0 <= i < j < n ==>
      WinningCombos(n)[k][i] != WinningCombos(n)[k][j]
  {
    WinningCombosLayout(n);
  }

  /** Every winning line can be looked up on any n x n board. */
  lemma WinningCombosOnBoard(board: Board, n: nat)
    requires IsSquare(board, n)
    ensures CombosOnBoard(board, WinningCombos(n))
  {
    WinningCombosInRange(n);
    var combos := WinningCombos(n);
    forall k, j | 0 <= k < |combos| && 0 <= j < |combos[k]|
      ensures OnBoard(board, combos[k][j])
    {
      assert InRange(combos[k][j], n);
    }
  }
}
