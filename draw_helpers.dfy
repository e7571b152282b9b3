/**
  The ship-length scan the board renderer uses to size a ship sprite: from a
  ship cell, count how many cells of the same column, going down, still belong
  to a ship. The drawing code around it is not part of this model.
*/
module DrawHelpers {
  import opened BoardHelpers

  /** A cell that holds a ship, hit or not. */
  predicate IsShipPart(x: Cell) {
    x == Ship || x == Hit
  }

  /** The number of consecutive ship cells in column `col` starting at row `r`. */
  function RunBelow(b: Board, n: int, col: int, r: int): nat
    requires IsBoard(b, n) && 0 <= col < n && 0 <= r
    decreases n - r
  {
    if r < n && IsShipPart(b[r][col]) then 1 + RunBelow(b, n, col, r + 1) else 0
  }

  /** The run stays on the board, is made of ship cells only, and ends at the edge or at a cell without a ship. */
  lemma {:induction false} RunBelowSpec(b: Board, n: int, col: int, r: int)
    requires IsBoard(b, n) && 0 <= col < n && 0 <= r
    ensures RunBelow(b, n, col, r) == 0 || r + RunBelow(b, n, col, r) <= n
    ensures forall i :: r <= i < r + RunBelow(b, n, col, r) ==> IsShipPart(b[i][col])
    ensures r + RunBelow(b, n, col, r) < n ==> !IsShipPart(b[r + RunBelow(b, n, col, r)][col])
    decreases n - r
  {
    if r < n && IsShipPart(b[r][col]) {
      RunBelowSpec(b, n, col, r + 1);
    }
  }

  /**
    detect_ship_length: the ship cell at (row, col) plus the run of ship
    cells directly below it, scanning no further than the last row.
  */
  method DetectShipLength(board: Board, n: int, row: int, col: int) returns (length: int)
    requires IsBoard(board, n) && InBounds(n, (row, col))
    ensures length == 1 + RunBelow(board, n, col, row + 1)
    ensures 1 <= length <= n - row
    ensures forall i :: row < i < row + length ==> IsShipPart(board[i][col])
    ensures row + length < n ==> !IsShipPart(board[row + length][col])
  {
    length := 1;
    var i := 1;
    while i < n - row
      invariant 1 <= i <= n - row
      invariant length == i
      invariant forall k :: row < k < row + i ==> IsShipPart(board[k][col])
      invariant RunBelow(board, n, col, row + 1) == (i - 1) + RunBelow(board, n, col, row + i)
      decreases n - row - i
    {
      if board[row + i][col] == Ship || board[row + i][col] == Hit {
        length := length + 1;
      } else {
        break;
      }
      i := i + 1;
    }
  }
}
