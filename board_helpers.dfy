/**
  Board model and shot resolver (game/board_helpers.py).

  A board is the source's list of rows of `Cell`; the model keeps it as a
  sequence of rows, and every operation that writes a cell returns the new
  board, which the caller stores back into its field.
*/
module BoardHelpers {
  import opened Wrappers

  /** One grid square: never fired at (Empty, Ship) or fired at (Miss, Hit). */
  datatype Cell = Empty | Ship | Miss | Hit

  /** A ship's orientation, the source's 'h' and 'v'. */
  datatype Orientation = H | V

  /** (row, col) */
  type Coord = (int, int)

  type Board = seq<seq<Cell>>

  /** `b` is an n-by-n grid. */
  predicate IsBoard(b: Board, n: int) {
    |b| == n && forall i :: 0 <= i < |b| ==> |b[i]| == n
  }

  predicate InBounds(n: int, p: Coord) {
    0 <= p.0 < n && 0 <= p.1 < n
  }

  predicate OnBoard(b: Board, p: Coord) {
    0 <= p.0 < |b| && 0 <= p.1 < |b[p.0]|
  }

  /** A cell that has not been fired at yet. */
  predicate Untried(x: Cell) {
    x == Empty || x == Ship
  }

  function Get(b: Board, p: Coord): Cell
    requires OnBoard(b, p)
  {
    b[p.0][p.1]
  }

  /** Two boards with the same shape. */
  predicate SameShape(b: Board, b': Board) {
    |b'| == |b| && forall i :: 0 <= i < |b| ==> |b'[i]| == |b[i]|
  }

  /** The board after writing `v` into cell `p`. */
  function Set(b: Board, p: Coord, v: Cell): (b': Board)
    requires OnBoard(b, p)
    ensures SameShape(b, b')
    ensures b'[p.0][p.1] == v
    ensures forall i, j :: 0 <= i < |b| && 0 <= j < |b[i]| && (i, j) != p ==> b'[i][j] == b[i][j]
  {
    b[p.0 := b[p.0][p.1 := v]]
  }

  /** The board after writing `v` into every cell of `cells`, in order. */
  function SetAll(b: Board, cells: seq<Coord>, v: Cell): (b': Board)
    requires forall k :: 0 <= k < |cells| ==> OnBoard(b, cells[k])
    ensures SameShape(b, b')
  {
    if cells == [] then b
    else
      var prefix := SetAll(b, cells[..|cells| - 1], v);
      var p := cells[|cells| - 1];
      assert OnBoard(b, p) && |prefix[p.0]| == |b[p.0]|;
      Set(prefix, p, v)
  }

  /** Every cell of `SetAll(b, cells, v)` is `v` on `cells` and as in `b` elsewhere. */
  lemma {:induction false} SetAllAt(b: Board, cells: seq<Coord>, v: Cell, i: int, j: int)
    requires forall k :: 0 <= k < |cells| ==> OnBoard(b, cells[k])
    requires 0 <= i < |b| && 0 <= j < |b[i]|
    ensures SetAll(b, cells, v)[i][j] == if (i, j) in cells then v else b[i][j]
  {
    if cells != [] {
      var init := cells[..|cells| - 1];
      SetAllAt(b, init, v, i, j);
      assert cells == init + [cells[|cells| - 1]];
    }
  }

  // ----- counting cells -----

  /** Number of cells of one row equal to `x` (Python's `row.count(x)`). */
  function CountRow(row: seq<Cell>, x: Cell): nat
  {
    if row == [] then 0
    else CountRow(row[..|row| - 1], x) + (if row[|row| - 1] == x then 1 else 0)
  }

  /** Number of cells of the board equal to `x`, row by row. */
  function CountCells(b: Board, x: Cell): nat
  {
    if b == [] then 0
    else CountCells(b[..|b| - 1], x) + CountRow(b[|b| - 1], x)
  }

  /** Cells not yet fired at. */
  function CountUntried(b: Board): nat
  {
    CountCells(b, Empty) + CountCells(b, Ship)
  }

  function Indicator(c: bool): nat { if c then 1 else 0 }

  lemma {:induction false} CountRowUpdate(row: seq<Cell>, j: int, v: Cell, x: Cell)
    requires 0 <= j < |row|
    ensures CountRow(row[j := v], x) + Indicator(row[j] == x) == CountRow(row, x) + Indicator(v == x)
  {
    var row' := row[j := v];
    if j < |row| - 1 {
      assert row'[..|row'| - 1] == row[..|row| - 1][j := v];
      CountRowUpdate(row[..|row| - 1], j, v, x);
    } else {
      assert row'[..|row'| - 1] == row[..|row| - 1];
    }
  }

  /** Writing one cell changes the count of `x` by what left and what entered. */
  lemma {:induction false} CountCellsUpdate(b: Board, p: Coord, v: Cell, x: Cell)
    requires OnBoard(b, p)
    ensures CountCells(Set(b, p, v), x) + Indicator(Get(b, p) == x) == CountCells(b, x) + Indicator(v == x)
  {
    var b' := Set(b, p, v);
    var last := |b| - 1;
    if p.0 < last {
      assert b'[..last] == Set(b[..last], p, v);
      assert b'[last] == b[last];
      CountCellsUpdate(b[..last], p, v, x);
    } else {
      assert b'[..last] == b[..last];
      assert b'[last] == b[last][p.1 := v];
      CountRowUpdate(b[last], p.1, v, x);
    }
  }

  lemma {:induction false} CountRowZero(row: seq<Cell>, x: Cell)
    ensures CountRow(row, x) == 0 <==> forall j :: 0 <= j < |row| ==> row[j] != x
  {
    if row != [] {
      CountRowZero(row[..|row| - 1], x);
      assert forall j :: 0 <= j < |row| - 1 ==> row[..|row| - 1][j] == row[j];
    }
  }

  /** The count of `x` is zero exactly when no cell holds `x`. */
  lemma {:induction false} CountCellsZero(b: Board, x: Cell)
    ensures CountCells(b, x) == 0 <==> forall i, j :: 0 <= i < |b| && 0 <= j < |b[i]| ==> b[i][j] != x
  {
    if b != [] {
      var last := |b| - 1;
      CountCellsZero(b[..last], x);
      CountRowZero(b[last], x);
      assert forall i :: 0 <= i < last ==> b[..last][i] == b[i];
    }
  }

  lemma {:induction false} CountRowBound(row: seq<Cell>, x: Cell)
    ensures CountRow(row, x) <= |row|
  {
    if row != [] { CountRowBound(row[..|row| - 1], x); }
  }

  /** On an n-by-n board at most n*n cells hold `x`. */
  lemma {:induction false} CountCellsBound(b: Board, n: nat, x: Cell)
    requires |b| <= n && forall i :: 0 <= i < |b| ==> |b[i]| == n
    ensures CountCells(b, x) <= |b| * n
  {
    if b != [] {
      CountCellsBound(b[..|b| - 1], n, x);
      CountRowBound(b[|b| - 1], x);
      assert (|b| - 1) * n + n == |b| * n;
    }
  }

  /** A positive count has a witness cell. */
  lemma CountCellsWitness(b: Board, x: Cell) returns (p: Coord)
    requires CountCells(b, x) > 0
    ensures OnBoard(b, p) && Get(b, p) == x
  {
    CountCellsZero(b, x);
    var i, j :| 0 <= i < |b| && 0 <= j < |b[i]| && b[i][j] == x;
    p := (i, j);
  }

  /** Writing `Ship` into distinct Empty cells adds one ship cell per cell. */
  lemma {:induction false} SetAllShipCount(b: Board, cells: seq<Coord>)
    requires forall k :: 0 <= k < |cells| ==> OnBoard(b, cells[k]) && Get(b, cells[k]) == Empty
    requires forall k, l :: 0 <= k < l < |cells| ==> cells[k] != cells[l]
    ensures CountCells(SetAll(b, cells, Ship), Ship) == CountCells(b, Ship) + |cells|
  {
    if cells != [] {
      var init := cells[..|cells| - 1];
      var p := cells[|cells| - 1];
      SetAllShipCount(b, init);
      SetAllAt(b, init, Ship, p.0, p.1);
      CountCellsUpdate(SetAll(b, init, Ship), p, Ship, Ship);
    }
  }

  /**
    Clearing cells that were just marked restores the board: marking a free
    span and then emptying it again is the identity.
  */
  lemma {:induction false} SetAllUndo(b: Board, cells: seq<Coord>)
    requires forall k :: 0 <= k < |cells| ==> OnBoard(b, cells[k]) && Get(b, cells[k]) == Empty
    ensures SetAll(SetAll(b, cells, Ship), cells, Empty) == b
  {
    var m := SetAll(b, cells, Ship);
    var u := SetAll(m, cells, Empty);
    forall i | 0 <= i < |b|
      ensures u[i] == b[i]
    {
      forall j | 0 <= j < |b[i]|
        ensures u[i][j] == b[i][j]
      {
        SetAllAt(m, cells, Empty, i, j);
        SetAllAt(b, cells, Ship, i, j);
        if (i, j) in cells {
          var k :| 0 <= k < |cells| && cells[k] == (i, j);
          assert Get(b, cells[k]) == Empty;
        }
      }
    }
  }

  // ----- create_board -----

  /** A fresh n-by-n grid of Empty cells. */
  function CreateBoard(n: nat): (b: Board)
    ensures IsBoard(b, n)
    ensures forall i, j :: 0 <= i < n && 0 <= j < n ==> b[i][j] == Empty
    ensures CountCells(b, Ship) == 0
  {
    var b := seq(n, _ => seq(n, _ => Empty));
    CountCellsZero(b, Ship);
    b
  }

  /** All n*n cells of a fresh board are untried. */
  lemma CreateBoardUntried(n: nat)
    ensures CountUntried(CreateBoard(n)) == n * n
  {
    var b := CreateBoard(n);
    CountCellsZero(b, Miss);
    CountCellsZero(b, Hit);
    CellKindsSum(b, n);
  }

  /** Every cell of an n-by-n board is one of the four kinds. */
  lemma {:induction false} CellKindsSum(b: Board, n: nat)
    requires |b| <= n && forall i :: 0 <= i < |b| ==> |b[i]| == n
    ensures CountCells(b, Empty) + CountCells(b, Ship) + CountCells(b, Miss) + CountCells(b, Hit) == |b| * n
  {
    if b != [] {
      CellKindsSum(b[..|b| - 1], n);
      RowKindsSum(b[|b| - 1]);
      assert (|b| - 1) * n + n == |b| * n;
    }
  }

  lemma {:induction false} RowKindsSum(row: seq<Cell>)
    ensures CountRow(row, Empty) + CountRow(row, Ship) + CountRow(row, Miss) + CountRow(row, Hit) == |row|
  {
    if row != [] { RowKindsSum(row[..|row| - 1]); }
  }

  // ----- fire_at -----

  /** The cell a shot leaves behind: a ship becomes Hit, anything else Miss. */
  function ShotResult(x: Cell): Cell {
    if x == Ship then Hit else Miss
  }

  /** The board after a shot at `p`. */
  function Resolve(b: Board, p: Coord): Board
    requires OnBoard(b, p)
  {
    Set(b, p, ShotResult(Get(b, p)))
  }

  /**
    A shot at an untried cell removes exactly one untried cell, and one ship
    cell exactly when it hits.
  */
  lemma ResolveCounts(b: Board, p: Coord)
    requires OnBoard(b, p) && Untried(Get(b, p))
    ensures CountCells(Resolve(b, p), Ship) == CountCells(b, Ship) - Indicator(Get(b, p) == Ship)
    ensures CountUntried(Resolve(b, p)) == CountUntried(b) - 1
  {
    var v := ShotResult(Get(b, p));
    CountCellsUpdate(b, p, v, Ship);
    CountCellsUpdate(b, p, v, Empty);
  }

  /**
    fire_at: a SHIP cell becomes HIT and the shot reports a hit; any other
    cell, an already hit one included, becomes MISS. No other cell changes.
    The result pairs the hit flag with the new board (the source writes the
    board in place).
  */
  function FireAt(row: int, col: int, board: Board): (res: (bool, Board))
    requires OnBoard(board, (row, col))
    ensures res.0 <==> board[row][col] == Ship
    ensures SameShape(board, res.1)
    ensures res.1[row][col] == (if res.0 then Hit else Miss)
    ensures forall i, j :: 0 <= i < |board| && 0 <= j < |board[i]| && (i, j) != (row, col) ==>
              res.1[i][j] == board[i][j]
    ensures CountCells(res.1, Ship) == CountCells(board, Ship) - Indicator(res.0)
  {
    var hit := board[row][col] == Ship;
    CountCellsUpdate(board, (row, col), ShotResult(board[row][col]), Ship);
    (hit, Resolve(board, (row, col)))
  }

  // ----- get_grid_pos -----

  /** For a positive divisor, `a / d` is the floor of a/d and lies in [0, n) iff a lies in [0, n*d). */
  lemma FloorDivRange(a: int, d: int, n: int)
    requires d > 0
    ensures (a / d) * d <= a < (a / d + 1) * d
    ensures 0 <= a / d < n <==> 0 <= a < n * d
  {
    var q := a / d;
    assert a == q * d + a % d;
    if 0 <= q < n {
      MulMono(q, n - 1, d);
    }
    if q < 0 {
      MulMono(q, -1, d);
    }
    if q >= n {
      MulMono(n, q, d);
    }
  }

  lemma MulMono(x: int, y: int, d: int)
    requires x <= y && d > 0
    ensures x * d <= y * d
  {
    assert y * d - x * d == (y - x) * d;
  }

  /**
    get_grid_pos: the pixel offset from the grid origin, floor-divided by the
    cell size; (row, col) only when both lie in [0, n), else the source's
    (None, None). `cs` is the cell size in force (`cell_size or CELL_SIZE`).
  */
  function GetGridPos(mx: int, my: int, offsetX: int, offsetY: int, cs: int, n: int): (p: Option<Coord>)
    requires cs > 0
    ensures p.Some? <==> 0 <= mx - offsetX < n * cs && 0 <= my - offsetY < n * cs
    ensures p.Some? ==> InBounds(n, p.value)
    ensures p.Some? ==> p.value.0 * cs <= my - offsetY < (p.value.0 + 1) * cs
    ensures p.Some? ==> p.value.1 * cs <= mx - offsetX < (p.value.1 + 1) * cs
  {
    FloorDivRange(mx - offsetX, cs, n);
    FloorDivRange(my - offsetY, cs, n);
    // Python's // floors; Dafny's / on int agrees with it for a positive divisor.
    var col := (mx - offsetX) / cs;
    var row := (my - offsetY) / cs;
    if 0 <= row < n && 0 <= col < n then Some((row, col)) else None
  }

  // ----- place_ship_randomly -----

  /** One iteration's random draws: the orientation and the start cell. */
  datatype Draw = Draw(orientation: Orientation, row: int, col: int)

  /** The ranges `randint` draws from for a ship of `size` cells. */
  predicate DrawInRange(n: int, size: int, d: Draw) {
    if d.orientation == H then 0 <= d.row <= n - 1 && 0 <= d.col <= n - size
    else 0 <= d.row <= n - size && 0 <= d.col <= n - 1
  }

  /** The `size` cells from (row, col) rightwards ('h') or downwards ('v'). */
  function SpanCells(o: Orientation, row: int, col: int, size: nat): (cells: seq<Coord>)
    ensures |cells| == size
    ensures forall i :: 0 <= i < size ==> cells[i] == (if o == H then (row, col + i) else (row + i, col))
  {
    seq(size, i => if o == H then (row, col + i) else (row + i, col))
  }

  /** The cells run from `start` one step at a time, rightwards when `o` is H, downwards when V. */
  predicate Line(cells: seq<Coord>, o: Orientation, start: Coord) {
    forall k :: 0 <= k < |cells| ==> cells[k] == (if o == H then (start.0, start.1 + k) else (start.0 + k, start.1))
  }

  /** Cells of a span in strictly increasing (row, col) order; hence distinct. */
  predicate Increasing(cells: seq<Coord>) {
    forall k, l :: 0 <= k < l < |cells| ==> cells[k].0 < cells[l].0 || (cells[k].0 == cells[l].0 && cells[k].1 < cells[l].1)
  }

  /** No element occurs twice. */
  predicate NoDup<T(==)>(s: seq<T>) {
    forall i, j :: 0 <= i < j < |s| ==> s[i] != s[j]
  }

  /** Every cell of the span is on the board and Empty. */
  predicate SpanFree(b: Board, cells: seq<Coord>) {
    forall k :: 0 <= k < |cells| ==> OnBoard(b, cells[k]) && Get(b, cells[k]) == Empty
  }

  /** The cells one draw would cover for a ship of `size`. */
  function DrawSpan(d: Draw, size: nat): seq<Coord> {
    SpanCells(d.orientation, d.row, d.col, size)
  }

  /**
    The first draw whose whole span is free: the attempt the retry loop
    keeps. FirstFitSpec states what it finds.
  */
  function FirstFit(b: Board, size: nat, draws: seq<Draw>): (f: Option<Draw>)
    ensures f.Some? ==> SpanFree(b, DrawSpan(f.value, size))
  {
    if draws == [] then None
    else if SpanFree(b, DrawSpan(draws[0], size)) then Some(draws[0])
    else FirstFit(b, size, draws[1..])
  }

  /**
    FirstFit finds nothing exactly when no draw fits; otherwise it finds a
    draw of the sequence whose every predecessor overlaps a non-Empty or
    off-board cell.
  */
  lemma {:induction false} FirstFitSpec(b: Board, size: nat, draws: seq<Draw>)
    ensures FirstFit(b, size, draws).None? <==> forall k :: 0 <= k < |draws| ==> !SpanFree(b, DrawSpan(draws[k], size))
    ensures FirstFit(b, size, draws).Some? ==>
              exists k :: 0 <= k < |draws| && draws[k] == FirstFit(b, size, draws).value &&
                (forall j :: 0 <= j < k ==> !SpanFree(b, DrawSpan(draws[j], size)))
  {
    if draws != [] && !SpanFree(b, DrawSpan(draws[0], size)) {
      FirstFitSpec(b, size, draws[1..]);
      var f := FirstFit(b, size, draws[1..]);
      assert forall k :: 1 <= k < |draws| ==> draws[1..][k - 1] == draws[k];
      if f.Some? {
        var k' :| 0 <= k' < |draws| - 1 && draws[1..][k'] == f.value &&
                  forall j :: 0 <= j < k' ==> !SpanFree(b, DrawSpan(draws[1..][j], size));
        assert draws[k' + 1] == f.value;
        assert forall j :: 1 <= j < k' + 1 ==> draws[j] == draws[1..][j - 1];
      }
    }
  }

  /** A span drawn in range lies on the grid, in increasing order. */
  lemma SpanInRange(n: nat, size: nat, d: Draw)
    requires DrawInRange(n, size, d)
    ensures var span := SpanCells(d.orientation, d.row, d.col, size);
            Increasing(span) && forall k :: 0 <= k < size ==> InBounds(n, span[k])
  {
  }

  /** Writing one more cell at the end of the list extends `SetAll`. */
  lemma SetAllSnoc(b: Board, cells: seq<Coord>, p: Coord, v: Cell)
    requires forall k :: 0 <= k < |cells| ==> OnBoard(b, cells[k])
    requires OnBoard(b, p)
    ensures SetAll(b, cells + [p], v) == Set(SetAll(b, cells, v), p, v)
  {
    assert (cells + [p])[..|cells|] == cells;
  }

  /**
    The cell-by-cell write loops of place_ship_randomly, try_place_on_grid
    and undo_last_ship: writes `v` into each cell of the span, in order.
  */
  method WriteSpan(board: Board, span: seq<Coord>, v: Cell) returns (newBoard: Board)
    requires forall k :: 0 <= k < |span| ==> OnBoard(board, span[k])
    ensures newBoard == SetAll(board, span, v)
  {
    newBoard := board;
    for k := 0 to |span|
      invariant newBoard == SetAll(board, span[..k], v)
    {
      SetAllSnoc(board, span[..k], span[k], v);
      assert span[..k + 1] == span[..k] + [span[k]];
      newBoard := Set(newBoard, span[k], v);
    }
    assert span[..|span|] == span;
  }

  /**
    place_ship_randomly. `draws` is the sequence of random attempts the
    retry loop consumes. The first attempt whose span is all Empty is
    written as Ship cells and its cells returned in order; an overlapping
    attempt writes nothing. `None` stands for draws running out, where the
    source keeps drawing forever.
  */
  method PlaceShipRandomly(board: Board, n: nat, size: nat, draws: seq<Draw>)
    returns (newBoard: Board, coords: Option<seq<Coord>>)
    requires IsBoard(board, n) && size <= n
    requires forall k :: 0 <= k < |draws| ==> DrawInRange(n, size, draws[k])
    ensures IsBoard(newBoard, n)
    ensures coords.None? <==> FirstFit(board, size, draws).None?
    ensures coords.None? ==> newBoard == board
    ensures coords.Some? ==>
              var d := FirstFit(board, size, draws).value;
              coords.value == SpanCells(d.orientation, d.row, d.col, size)
    ensures coords.Some? ==>
              |coords.value| == size && Increasing(coords.value) &&
              (forall k :: 0 <= k < size ==> InBounds(n, coords.value[k])) &&
              SpanFree(board, coords.value) &&
              newBoard == SetAll(board, coords.value, Ship) &&
              CountCells(newBoard, Ship) == CountCells(board, Ship) + size
  {
    var i := 0;
    while i < |draws|
      invariant 0 <= i <= |draws|
      invariant FirstFit(board, size, draws) == FirstFit(board, size, draws[i..])
    {
      var d := draws[i];
      var span := SpanCells(d.orientation, d.row, d.col, size);
      if SpanFree(board, span) {
        SpanInRange(n, size, d);
        newBoard := WriteSpan(board, span, Ship);
        SetAllShipCount(board, span);
        coords := Some(span);
        return;
      }
      assert draws[i..][1..] == draws[i + 1..];
      i := i + 1;
    }
    newBoard, coords := board, None;
  }
}
