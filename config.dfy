/**
  Grid-size-driven layout and fleet (core/config.py).

  The source keeps these values as mutable class-level fields of `Config`
  that every screen reads; the model makes `Config` a class whose one
  instance is handed to the operations that read it.
*/
module CoreConfig {
  import opened BoardHelpers

  const WIDTH := 1000
  const HEIGHT := 600
  const DEFAULT_CELL_SIZE := 40
  const DEFAULT_GRID_SIZE := 10
  const SPACE_BETWEEN := 100
  const TOP_BAR_HEIGHT := 40
  /** Cells of room left beside the two boards (update_layout's `padding`). */
  const PADDING := 3
  const MIN_CELL_SIZE := 20
  const MAX_CELL_SIZE := 60

  predicate StrictlyDecreasing(s: seq<int>) {
    forall i, j :: 0 <= i < j < |s| ==> s[i] > s[j]
  }

  /**
    generate_ships_for_grid as a value: the fleet is a run of consecutive
    sizes down to 3, so strictly decreasing, and its largest ship fits the
    grid once the grid has room for a 3. A 6 appears only above 12.
  */
  function ShipsForGrid(n: int): (s: seq<int>)
    ensures |s| >= 1 && s[|s| - 1] == 3
    ensures forall i :: 0 <= i < |s| ==> s[i] == s[0] - i
    ensures StrictlyDecreasing(s)
    ensures forall i :: 0 <= i < |s| ==> 3 <= s[i] && (3 <= n ==> s[i] <= n)
    ensures 6 in s <==> n > 12
  {
    if n <= 6 then [3]
    else if n <= 8 then [4, 3]
    else if n <= 12 then [5, 4, 3]
    else [6, 5, 4, 3]
  }

  function Min(a: int, b: int): int { if a <= b then a else b }

  function Max(a: int, b: int): int { if a <= b then b else a }

  /** The largest cell size that fits 2n + 3 cells across and n + 4 down. */
  function RawCellSize(n: int): int
    requires n >= 1
  {
    Min(WIDTH / (2 * n + PADDING), HEIGHT / (n + 4))
  }

  /** update_layout's CELL_SIZE: the raw size clamped into [20, 60]. */
  function CellSizeFor(n: int): (cs: int)
    requires n >= 1
    ensures MIN_CELL_SIZE <= cs <= MAX_CELL_SIZE
    ensures cs <= RawCellSize(n) || cs == MIN_CELL_SIZE
    ensures cs >= RawCellSize(n) || cs == MAX_CELL_SIZE
  {
    Max(MIN_CELL_SIZE, Min(RawCellSize(n), MAX_CELL_SIZE))
  }

  /** For a positive divisor, a larger divisor never gives a larger quotient. */
  lemma DivAntitone(a: int, d1: int, d2: int)
    requires a >= 0 && 0 < d1 <= d2
    ensures a / d2 <= a / d1
  {
    var q1, q2 := a / d1, a / d2;
    FloorDivRange(a, d1, 0);
    FloorDivRange(a, d2, 0);
    MulNonneg(q2, d2, a);
    if q2 > q1 {
      MulMono(d1, d2, q2);
      MulMono(q1 + 1, q2, d1);
    }
  }

  /** A quotient whose next multiple is above a non-negative value is not negative. */
  lemma MulNonneg(q: int, d: int, a: int)
    requires d > 0 && a >= 0 && a < (q + 1) * d
    ensures q >= 0
  {
    if q < 0 {
      MulMono(q + 1, 0, d);
    }
  }

  /** A larger grid never gets larger cells. */
  lemma CellSizeAntitone(n: int, m: int)
    requires 1 <= n <= m
    ensures CellSizeFor(m) <= CellSizeFor(n)
  {
    DivAntitone(WIDTH, 2 * n + PADDING, 2 * m + PADDING);
    DivAntitone(HEIGHT, n + 4, m + 4);
  }

  /**
    When the clamp does not raise the cell size, the two boards and the
    padding fit across the window and the board plus four rows fits down it.
  */
  lemma LayoutFits(n: int)
    requires n >= 1 && RawCellSize(n) >= MIN_CELL_SIZE
    ensures (2 * n + PADDING) * CellSizeFor(n) <= WIDTH
    ensures (n + 4) * CellSizeFor(n) <= HEIGHT
  {
    var cs := CellSizeFor(n);
    FloorDivRange(WIDTH, 2 * n + PADDING, 0);
    FloorDivRange(HEIGHT, n + 4, 0);
    MulMono(cs, WIDTH / (2 * n + PADDING), 2 * n + PADDING);
    MulMono(cs, HEIGHT / (n + 4), n + 4);
  }

  class Config {
    var gridSize: int
    var cellSize: int
    var shipSizes: seq<int>
    var gridWidth: int
    var boardOffsetX: int
    var enemyOffsetX: int
    var boardOffsetY: int

    /** The layout and fleet agree with the grid size, as update_layout leaves them. */
    predicate Valid()
      reads this
    {
      gridSize >= 1 &&
      shipSizes == ShipsForGrid(gridSize) &&
      cellSize == CellSizeFor(gridSize) &&
      gridWidth == gridSize * cellSize &&
      // Python's // floors; Dafny's / agrees for the positive divisor 2.
      boardOffsetX == (WIDTH - (2 * gridWidth + SPACE_BETWEEN)) / 2 &&
      enemyOffsetX == boardOffsetX + gridWidth + SPACE_BETWEEN &&
      boardOffsetY == (HEIGHT - gridWidth) / 2
    }

    /**
      The class-level defaults followed by the update_layout call made at
      start-up, before any screen reads the layout.
    */
    constructor ()
      ensures gridSize == DEFAULT_GRID_SIZE && Valid()
      ensures shipSizes == [5, 4, 3]
    {
      gridSize := DEFAULT_GRID_SIZE;
      cellSize := DEFAULT_CELL_SIZE;
      shipSizes := [];
      gridWidth, boardOffsetX, enemyOffsetX, boardOffsetY := 0, 0, 0, 0;
      new;
      UpdateLayout();
    }

    /** generate_ships_for_grid: the fleet for the current grid size. */
    method GenerateShipsForGrid()
      modifies this`shipSizes
      ensures shipSizes == ShipsForGrid(gridSize)
    {
      if gridSize <= 6 {
        shipSizes := [3];
      } else if gridSize <= 8 {
        shipSizes := [4, 3];
      } else if gridSize <= 12 {
        shipSizes := [5, 4, 3];
      } else {
        shipSizes := [6, 5, 4, 3];
      }
    }

    /**
      update_layout: recomputes the cell size, grid width and board offsets
      from the grid size and always regenerates the fleet.
    */
    method UpdateLayout()
      requires gridSize >= 1
      modifies this`cellSize, this`gridWidth, this`boardOffsetX, this`enemyOffsetX, this`boardOffsetY, this`shipSizes
      ensures Valid()
      ensures MIN_CELL_SIZE <= cellSize <= MAX_CELL_SIZE
      ensures gridWidth == gridSize * cellSize
      ensures enemyOffsetX == boardOffsetX + gridWidth + SPACE_BETWEEN
    {
      var padding := PADDING;
      var maxCellW := WIDTH / (2 * gridSize + padding);
      var maxCellH := HEIGHT / (gridSize + 4);
      var rawCellSize := Min(maxCellW, maxCellH);
      cellSize := Max(20, Min(rawCellSize, 60));
      gridWidth := gridSize * cellSize;
      boardOffsetX := (WIDTH - (2 * gridWidth + SPACE_BETWEEN)) / 2;
      enemyOffsetX := boardOffsetX + gridWidth + SPACE_BETWEEN;
      boardOffsetY := (HEIGHT - gridWidth) / 2;
      GenerateShipsForGrid();
    }
  }
}
