/**
 * The random opponent: given a flat board in which 0 marks a free cell, it
 * picks one free index, or reports that there is none. The random draw is
 * a parameter: `draw` selects the entry draw % |free| of the free list, as
 * a uniform choice over that list does with a draw below its length.
 */
module RandomMover {
  import opened Wrappers

  /** The free positions: exactly the indices i with board[i] == 0, in ascending order. */
  function FreePositions(board: seq<int>): (free: seq<nat>)
    ensures forall k :: 0 <= k < |free| ==> free[k] < |board| && board[free[k]] == 0
    ensures forall i :: 0 <= i < |board| && board[i] == 0 ==> i in free
    ensures forall k, l :: 0 <= k < l < |free| ==> free[k] < free[l]
    decreases |board|
  {
    if |board| == 0 then
      []
    else
      var last := |board| - 1;
      var init := FreePositions(board[..last]);
      assert forall i :: 0 <= i < last ==> board[..last][i] == board[i];
      if board[last] == 0 then init + [last] else init
  }

  /**
   * Picks a free cell index, or None when no cell is free. The label of the
   * player to move (`signe`) takes no part in the choice.
   */
  function Ia(board: seq<int>, signe: string, draw: nat): (r: Option<nat>)
    ensures r.None? <==> forall i :: 0 <= i < |board| ==> board[i] != 0
    ensures r.Some? ==> r.value < |board| && board[r.value] == 0
  {
    var positionsLibres := FreePositions(board);
    if |positionsLibres| > 0 then
      Some(positionsLibres[draw % |positionsLibres|])
    else
      None
  }

  /** On a board with exactly one free cell, every draw picks that cell. */
  lemma OneFreeCell(board: seq<int>, signe: string, draw: nat, i: nat)
    requires i < |board| && board[i] == 0
    requires forall j :: 0 <= j < |board| && j != i ==> board[j] != 0
    ensures Ia(board, signe, draw) == Some(i)
  {
    var free := FreePositions(board);
    assert i in free;
    assert forall k :: 0 <= k < |free| ==> free[k] == i;
    assert |free| > 1 ==> free[0] < free[1];
  }

  /** Every free cell is the pick of some draw: the choice ranges over the whole free set. */
  lemma EveryFreeCellReachable(board: seq<int>, signe: string, i: nat)
    requires i < |board| && board[i] == 0
    ensures exists draw: nat :: Ia(board, signe, draw) == Some(i)
  {
    var free := FreePositions(board);
    var k :| 0 <= k < |free| && free[k] == i;
    assert k % |free| == k;
    assert Ia(board, signe, k) == Some(i);
  }

  /** The label passed in has no effect on the pick. */
  lemma MarkIgnored(board: seq<int>, s1: string, s2: string, draw: nat)
    ensures Ia(board, s1, draw) == Ia(board, s2, draw)
  {
  }
}
