/**
  The ship-placement screen's logic: the queue of ships still to place, the
  active ship the player drags and its preview successor, placement on the
  player's board with undo, and the Ready button for single-player,
  pass-and-play and network games.

  The ships are `DraggableShip` objects shared between the queue, the active
  and preview slots and the list of placed ships, as in the source. The
  ghost history `boards` records the player board before each placed ship,
  so that undoing a ship can be shown to restore the board it was placed on.
*/
module PlacingModel {
  import opened Wrappers
  import opened BoardHelpers
  import opened CoreConfig
  import opened NetworkChannel
  import opened CoreGameState
  import opened DraggableShipModel
  import opened Events

  /** main_area_position: where the active ship waits to be dragged. */
  const MAIN_X := WIDTH - 350
  const MAIN_Y := HEIGHT / 2 - 40
  /** preview_area_position: where the next ship is shown. */
  const PREVIEW_X := WIDTH - 250
  const PREVIEW_Y := HEIGHT / 2 - 100
  /** The grid's pixel origin on this screen, relative to the board offsets. */
  const GRID_MARGIN_X := 34
  const GRID_MARGIN_Y := 31

  function Active(a: DraggableShip?): seq<DraggableShip> {
    if a == null then [] else [a]
  }

  /** The connection, if there is one. */
  function Channels(c: Channel?): set<Channel> {
    if c == null then {} else {c}
  }

  /** Every size of the fleet has a sprite, so setup_ships can build the queue. */
  predicate AllHaveImages(sizes: seq<int>) {
    forall k :: 0 <= k < |sizes| ==> HasImage(sizes[k])
  }

  /**
    The fleet of a grid can be set up exactly when the grid has at most 12
    cells a side: larger grids carry a ship of 6, which has no sprite.
  */
  lemma SetupNeedsSmallGrid(n: int)
    ensures AllHaveImages(ShipsForGrid(n)) <==> n <= 12
  {
    var s := ShipsForGrid(n);
    if n > 12 {
      var i :| 0 <= i < |s| && s[i] == 6;
      assert !HasImage(s[i]);
    } else {
      assert 6 !in s;
    }
  }

  /** A new ship: horizontal, not dragged, on no cell, its sprite in the main area. */
  predicate Waiting(s: DraggableShip, cs: int)
    reads s
  {
    s.cellSize == cs && s.orientation == H && s.rect == Rect(MAIN_X, MAIN_Y, s.size * cs, cs) &&
    s.coords == [] && !s.dragging
  }

  /**
    One ship per entry of the fleet, in its order, each with a sprite; the
    ships are told apart by `slot`, which maps each to its position, so no
    ship occurs twice (FleetDistinct).
  */
  predicate FleetOf(ships: seq<DraggableShip>, fleet: seq<int>, slot: map<DraggableShip, int>) {
    |ships| == |fleet| &&
    forall k :: 0 <= k < |ships| ==>
      ships[k] in slot && slot[ships[k]] == k && ships[k].size == fleet[k] && HasImage(fleet[k]) && ships[k].cellSize > 0
  }

  lemma FleetDistinct(ships: seq<DraggableShip>, fleet: seq<int>, slot: map<DraggableShip, int>)
    requires FleetOf(ships, fleet, slot)
    ensures NoDup(ships)
  {
    forall i, j | 0 <= i < j < |ships| ensures ships[i] != ships[j] {
      assert slot[ships[i]] == i && slot[ships[j]] == j;
    }
  }

  /**
    The cells try_place_on_grid fills for a ship of `size` cells whose
    sprite centre is (cx, cy): the grid cell under the centre, moved back by
    size/2 along the orientation, as the first of `size` cells; None when the
    centre is off the grid or the span leaves the grid or covers a cell that
    is not Empty.
  */
  function PlacementSpan(b: Board, n: int, cs: int, offX: int, offY: int, o: Orientation, size: nat, cx: int, cy: int): Option<seq<Coord>>
    requires cs > 0
  {
    if GetGridPos(cx, cy, offX, offY, cs, n).None? then None
    else
      var a := Anchor(cx, cy, offX, offY, cs, o, size);
      var span := SpanCells(o, a.0, a.1, size);
      if SpanFits(n, o, a, size) && SpanFree(b, span) then Some(span) else None
  }

  /**
    Placement is all or nothing: it fails exactly when the centre is off the
    grid, a cell of the span is off the grid, or a cell of the span is taken.
  */
  lemma PlacementSpanNone(b: Board, n: int, cs: int, offX: int, offY: int, o: Orientation, size: nat, cx: int, cy: int)
    requires cs > 0 && IsBoard(b, n) && size >= 1
    ensures var a := Anchor(cx, cy, offX, offY, cs, o, size);
            var span := SpanCells(o, a.0, a.1, size);
            PlacementSpan(b, n, cs, offX, offY, o, size, cx, cy).None? <==>
              (GetGridPos(cx, cy, offX, offY, cs, n).None? ||
               (exists k :: 0 <= k < size && !InBounds(n, span[k])) ||
               (exists k :: 0 <= k < size && InBounds(n, span[k]) && Get(b, span[k]) != Empty))
  {
    var a := Anchor(cx, cy, offX, offY, cs, o, size);
    SpanFitsIff(n, o, a, size);
  }

  /**
    A placement is `size` increasing cells, on the grid and Empty before,
    whose middle cell is the one under the sprite's centre; writing it adds
    exactly `size` SHIP cells to the board.
  */
  lemma PlacementSpanSome(b: Board, n: int, cs: int, offX: int, offY: int, o: Orientation, size: nat, cx: int, cy: int)
    requires cs > 0 && IsBoard(b, n) && size >= 1
    requires PlacementSpan(b, n, cs, offX, offY, o, size, cx, cy).Some?
    ensures var span := PlacementSpan(b, n, cs, offX, offY, o, size, cx, cy).value;
            |span| == size && Increasing(span) && NoDup(span) && SpanFree(b, span) &&
            (forall k :: 0 <= k < size ==> InBounds(n, span[k])) &&
            span[size / 2] == GetGridPos(cx, cy, offX, offY, cs, n).value &&
            CountShips(SetAll(b, span, Ship)) == CountShips(b) + size
    ensures Line(PlacementSpan(b, n, cs, offX, offY, o, size, cx, cy).value, o, Anchor(cx, cy, offX, offY, cs, o, size))
  {
    var a := Anchor(cx, cy, offX, offY, cs, o, size);
    var span := SpanCells(o, a.0, a.1, size);
    assert PlacementSpan(b, n, cs, offX, offY, o, size, cx, cy).value == span &&
           SpanFits(n, o, a, size) && SpanFree(b, span) &&
           span[size / 2] == GetGridPos(cx, cy, offX, offY, cs, n).value;
    FreeSpan(b, n, o, a, size);
  }

  /**
    A span that fits the grid and is Empty: `size` increasing cells, one
    step apart along the orientation, on the grid; writing it adds exactly
    `size` SHIP cells.
  */
  lemma FreeSpan(b: Board, n: int, o: Orientation, a: Coord, size: nat)
    requires IsBoard(b, n) && size >= 1
    requires SpanFits(n, o, a, size) && SpanFree(b, SpanCells(o, a.0, a.1, size))
    ensures var span := SpanCells(o, a.0, a.1, size);
            Increasing(span) && NoDup(span) &&
            (forall k :: 0 <= k < size ==> InBounds(n, span[k])) &&
            Line(span, o, a) &&
            CountShips(SetAll(b, span, Ship)) == CountShips(b) + size
  {
    var span := SpanCells(o, a.0, a.1, size);
    assert Line(span, o, a);
    assert forall k :: 0 <= k < size ==> InBounds(n, span[k]) by { SpanFitsIff(n, o, a, size); }
    assert Increasing(span) && NoDup(span) by { SpanCellsOrdered(o, a.0, a.1, size); }
    assert CountShips(SetAll(b, span, Ship)) == CountShips(b) + size by { SetAllShipCount(b, span); }
  }

  /** The cells of a span come in increasing order, so none twice. */
  lemma SpanCellsOrdered(o: Orientation, row: int, col: int, size: nat)
    ensures Increasing(SpanCells(o, row, col, size)) && NoDup(SpanCells(o, row, col, size))
  {
    var span := SpanCells(o, row, col, size);
    forall k, l | 0 <= k < l < size ensures span[k] != span[l] {
      if o == H { assert span[k].1 < span[l].1; } else { assert span[k].0 < span[l].0; }
    }
  }

  /** A placement found on a board is one step of a history. */
  lemma PlacementStep(b: Board, n: int, cs: int, offX: int, offY: int, o: Orientation, size: nat, cx: int, cy: int)
    requires cs > 0 && IsBoard(b, n) && size >= 1
    requires PlacementSpan(b, n, cs, offX, offY, o, size, cx, cy).Some?
    ensures var span := PlacementSpan(b, n, cs, offX, offY, o, size, cx, cy).value;
            |span| == size && Step(b, span, SetAll(b, span, Ship))
  {
    PlacementSpanSome(b, n, cs, offX, offY, o, size, cx, cy);
  }

  /**
    Where a drop snaps a sprite: the cell under its centre, moved back by
    half the ship along its orientation, must be on the grid, and then the
    sprite's top-left corner moves to that cell; None when it is off the
    grid.
  */
  function SnapRect(r: Rect, n: int, cs: int, offX: int, offY: int, o: Orientation, size: int): (s: Option<Rect>)
    requires cs > 0
    ensures s.Some? <==> InBounds(n, Anchor(r.CenterX(), r.CenterY(), offX, offY, cs, o, size))
    ensures s.Some? ==> s.value.w == r.w && s.value.h == r.h && s.value.x == offX + Anchor(r.CenterX(), r.CenterY(), offX, offY, cs, o, size).1 * cs &&
                        s.value.y == offY + Anchor(r.CenterX(), r.CenterY(), offX, offY, cs, o, size).0 * cs
  {
    var p := Anchor(r.CenterX(), r.CenterY(), offX, offY, cs, o, size);
    if InBounds(n, p) then Some(r.WithTopLeft(offX + p.1 * cs, offY + p.0 * cs)) else None
  }

  /**
    The search of try_place_on_grid: the grid cell under the centre, the
    bounds test for the span, then the cells one by one until one is not
    Empty.
  */
  method FindPlacement(b: Board, n: int, cs: int, offX: int, offY: int, o: Orientation, size: nat, cx: int, cy: int)
    returns (r: Option<seq<Coord>>)
    requires cs > 0 && IsBoard(b, n) && size >= 1
    ensures r == PlacementSpan(b, n, cs, offX, offY, o, size, cx, cy)
    ensures r.Some? ==> forall k :: 0 <= k < |r.value| ==> OnBoard(b, r.value[k])
  {
    if GetGridPos(cx, cy, offX, offY, cs, n).None? {
      return None;
    }
    var a := Anchor(cx, cy, offX, offY, cs, o, size);
    if !SpanFits(n, o, a, size) {
      return None;
    }
    SpanFitsIff(n, o, a, size);
    var span := SpanCells(o, a.0, a.1, size);
    for k := 0 to size
      invariant forall j :: 0 <= j < k ==> Get(b, span[j]) == Empty
    {
      if Get(b, span[k]) != Empty {
        return None;
      }
    }
    return Some(span);
  }

  /** The cells of each ship, in order. */
  function CoordsOf(ships: seq<DraggableShip>): (r: seq<seq<Coord>>)
    reads ships`coords
    ensures |r| == |ships| && forall k :: 0 <= k < |ships| ==> r[k] == ships[k].coords
  {
    if ships == [] then [] else [ships[0].coords] + CoordsOf(ships[1..])
  }

  /** One placement: a free span without repeated cells, written as SHIP. */
  predicate Step(b: Board, span: seq<Coord>, next: Board) {
    SpanFree(b, span) && NoDup(span) && next == SetAll(b, span, Ship)
  }

  /**
    A history of boards, each obtained from the one before by one
    placement of the corresponding span; stated from the last placement
    back.
  */
  predicate Stacked(boards: seq<Board>, spans: seq<seq<Coord>>)
    decreases |spans|
  {
    |boards| == |spans| + 1 &&
    (spans != [] ==>
      Step(boards[|spans| - 1], spans[|spans| - 1], boards[|spans|]) &&
      Stacked(boards[..|spans|], spans[..|spans| - 1]))
  }

  /** The number of cells of all spans. */
  function SumLengths(spans: seq<seq<Coord>>): nat
    decreases |spans|
  {
    if spans == [] then 0 else SumLengths(spans[..|spans| - 1]) + |spans[|spans| - 1]|
  }

  /** Along a history, every placed span adds its length to the SHIP count. */
  lemma {:induction false} StackedCount(boards: seq<Board>, spans: seq<seq<Coord>>)
    requires Stacked(boards, spans)
    ensures CountShips(boards[|spans|]) == CountShips(boards[0]) + SumLengths(spans)
    decreases |spans|
  {
    if spans != [] {
      var k := |spans| - 1;
      StackedCount(boards[..|spans|], spans[..k]);
      SetAllShipCount(boards[k], spans[k]);
    }
  }

  /** A history grows by one board when one more placement is made on its last board. */
  lemma StackedSnoc(boards: seq<Board>, spans: seq<seq<Coord>>, span: seq<Coord>, next: Board)
    requires Stacked(boards, spans) && Step(boards[|spans|], span, next)
    ensures Stacked(boards + [next], spans + [span])
  {
    assert (boards + [next])[..|spans| + 1] == boards;
    assert (spans + [span])[..|spans|] == spans;
  }

  /** The sum of a list grows by its last element. */
  lemma {:induction false} SumSnoc(s: seq<int>, x: int)
    ensures Sum(s + [x]) == Sum(s) + x
  {
    if s != [] {
      assert (s + [x])[1..] == s[1..] + [x];
      SumSnoc(s[1..], x);
    } else {
      assert Sum([x]) == x + Sum([]);
    }
  }

  /** Spans whose lengths are the given sizes have the sizes' total of cells. */
  lemma {:induction false} SumLengthsOf(spans: seq<seq<Coord>>, sizes: seq<int>)
    requires |sizes| == |spans| && forall i :: 0 <= i < |spans| ==> |spans[i]| == sizes[i]
    ensures SumLengths(spans) == Sum(sizes)
    decreases |spans|
  {
    if spans != [] {
      var k := |spans| - 1;
      SumLengthsOf(spans[..k], sizes[..k]);
      SumSnoc(sizes[..k], sizes[k]);
      assert sizes[..k] + [sizes[k]] == sizes;
    }
  }

  /** Each ship lies on its span, which has as many cells as the ship. */
  predicate ShipsOn(ships: seq<DraggableShip>, spans: seq<seq<Coord>>)
    reads ships`coords
  {
    |ships| == |spans| && forall i :: 0 <= i < |ships| ==> ships[i].coords == spans[i] && |spans[i]| == ships[i].size
  }

  lemma AppendAssoc<T>(a: seq<T>, b: seq<T>, c: seq<T>)
    ensures (a + b) + c == a + (b + c)
  {
  }

  /** The parts of a list without repetitions have none, and share nothing. */
  lemma NoDupAppend<T>(a: seq<T>, b: seq<T>)
    requires NoDup(a + b)
    ensures NoDup(a) && NoDup(b)
    ensures forall i, j :: 0 <= i < |a| && 0 <= j < |b| ==> a[i] != b[j]
  {
    forall i, j | 0 <= i < |a| && 0 <= j < |b| ensures a[i] != b[j] {
      assert (a + b)[i] == a[i] && (a + b)[|a| + j] == b[j];
    }
    forall i, j | 0 <= i < j < |a| ensures a[i] != a[j] {
      assert (a + b)[i] == a[i] && (a + b)[j] == a[j];
    }
    forall i, j | 0 <= i < j < |b| ensures b[i] != b[j] {
      assert (a + b)[|a| + i] == b[i] && (a + b)[|a| + j] == b[j];
    }
  }

  class PlacingLogic {
    const state: GameState
    const cfg: Config
    var activeShip: DraggableShip?
    var previewShip: DraggableShip?
    var shipQueue: seq<DraggableShip>
    var placedShips: seq<DraggableShip>
    var readyToStart: bool
    var gridOffsetX: int
    var gridOffsetY: int
    /** The fleet the current round of placement was set up from. */
    ghost var fleet: seq<int>
    /** The player board before each placed ship, then the current board. */
    ghost var boards: seq<Board>
    /** The cells of each placed ship, in placing order. */
    ghost var spans: seq<seq<Coord>>
    /** The ships of the round, in fleet order. */
    ghost var roster: seq<DraggableShip>
    /** Each ship of the round and its position in the fleet. */
    ghost var slot: map<DraggableShip, int>

    /**
      The fields __init__ sets around its setup_ships call; `Create` runs
      that call. The grid offsets are taken from the layout in force now
      and are not recomputed later.
    */
    constructor (state: GameState, cfg: Config)
      ensures this.state == state && this.cfg == cfg
      ensures activeShip == null && previewShip == null && shipQueue == [] && placedShips == [] && !readyToStart
      ensures gridOffsetX == cfg.boardOffsetX + GRID_MARGIN_X && gridOffsetY == cfg.boardOffsetY + GRID_MARGIN_Y
    {
      this.state := state;
      this.cfg := cfg;
      activeShip := null;
      previewShip := null;
      shipQueue := [];
      placedShips := [];
      readyToStart := false;
      gridOffsetX := cfg.boardOffsetX + GRID_MARGIN_X;
      gridOffsetY := cfg.boardOffsetY + GRID_MARGIN_Y;
      fleet := [];
      boards := [];
      spans := [];
      slot := map[];
      roster := [];
    }

    /** Every ship of the round: placed ones, the active one, then the queue. */
    function Lineup(): seq<DraggableShip>
      reads this`placedShips, this`activeShip, this`shipQueue
    {
      placedShips + (Active(activeShip) + shipQueue)
    }

    /**
      The ship bookkeeping: each ship of the fleet is exactly once placed,
      active or queued, in fleet order; every ship has a sprite; the
      preview is the queue's front; Ready only once no ship is left.
    */
    ghost predicate Accounting()
      reads this`placedShips, this`activeShip, this`shipQueue, this`previewShip, this`readyToStart, this`fleet, this`slot, this`roster
    {
      Lineup() == roster && FleetOf(roster, fleet, slot) &&
      previewShip == (if shipQueue == [] then null else shipQueue[0]) &&
      (readyToStart ==> activeShip == null && previewShip == null)
    }

    /** The current board is the board of the round with each placed ship's cells written as SHIP, in order. */
    ghost predicate History()
      reads this`placedShips, this`boards, this`spans, state`playerBoard, placedShips`coords
    {
      Stacked(boards, spans) && boards[|spans|] == state.playerBoard && ShipsOn(placedShips, spans)
    }

    ghost predicate Valid()
      reads this`placedShips, this`activeShip, this`shipQueue, this`previewShip, this`readyToStart, this`fleet, this`slot, this`roster
      reads this`boards, this`spans, state`playerBoard, placedShips`coords
    {
      Accounting() && History()
    }

    /**
      Conservation of ship cells: the board holds the SHIP cells it had when
      the round began plus one per cell of every placed ship.
    */
    lemma PlacedShipCells()
      requires History()
      ensures CountShips(state.playerBoard) == CountShips(boards[0]) + SumLengths(spans)
    {
      StackedCount(boards, spans);
    }

    /**
      Once the screen is ready every ship of the fleet is placed, and the
      board holds exactly the fleet's cells more than at the start of the
      round.
    */
    lemma ReadyBoard()
      requires Valid() && readyToStart
      ensures placedShips == Lineup() && |placedShips| == |fleet|
      ensures CountShips(state.playerBoard) == CountShips(boards[0]) + Sum(fleet)
    {
      assert Lineup() == placedShips;
      StackedCount(boards, spans);
      SumLengthsOf(spans, fleet);
    }

    /**
      update_active_and_preview: the queue's front becomes the active ship
      and waits in the main area; the new front is the preview and waits in
      the preview area. No other ship moves.
    */
    method UpdateActiveAndPreview()
      requires NoDup(shipQueue)
      modifies this`activeShip, this`previewShip, this`shipQueue, shipQueue`rect
      ensures Active(activeShip) + shipQueue == old(shipQueue) && (activeShip == null <==> old(shipQueue) == [])
      ensures previewShip == (if shipQueue == [] then null else shipQueue[0])
      ensures old(shipQueue) != [] ==> old(shipQueue)[0].rect == old(shipQueue[0].rect).WithTopLeft(MAIN_X, MAIN_Y)
      ensures |old(shipQueue)| >= 2 ==> old(shipQueue)[1].rect == old(shipQueue[1].rect).WithTopLeft(PREVIEW_X, PREVIEW_Y)
      ensures forall k :: 2 <= k < |old(shipQueue)| ==> old(shipQueue)[k].rect == old(shipQueue[k].rect)
    {
      if shipQueue != [] {
        activeShip := shipQueue[0];
        shipQueue := shipQueue[1..];
        activeShip.rect := activeShip.rect.WithTopLeft(MAIN_X, MAIN_Y);
      } else {
        activeShip := null;
      }
      if shipQueue != [] {
        previewShip := shipQueue[0];
        previewShip.rect := previewShip.rect.WithTopLeft(PREVIEW_X, PREVIEW_Y);
      } else {
        previewShip := null;
      }
    }

    /**
      update_active_and_preview when every ship not yet placed is queued:
      afterwards each ship of the round is still placed, active or queued,
      in fleet order, and the preview is the queue's front.
    */
    method Advance()
      requires placedShips + shipQueue == roster && FleetOf(roster, fleet, slot) && NoDup(shipQueue)
      modifies this`activeShip, this`previewShip, this`shipQueue, shipQueue`rect
      ensures Lineup() == roster && previewShip == (if shipQueue == [] then null else shipQueue[0])
      ensures activeShip == null <==> old(shipQueue) == []
    {
      UpdateActiveAndPreview();
      AppendAssoc(placedShips, Active(activeShip), shipQueue);
    }

    /**
      The ships of a fleet, each a fresh horizontal sprite waiting in the
      main area, built in fleet order. A size without a sprite makes the
      constructor raise ValueError, and then no queue is built (None).
    */
    method BuildQueue(sizes: seq<int>) returns (queue: Option<seq<DraggableShip>>, ghost slots: map<DraggableShip, int>)
      requires cfg.Valid()
      ensures queue.Some? <==> AllHaveImages(sizes)
      ensures queue.Some? ==> FleetOf(queue.value, sizes, slots)
      ensures queue.Some? ==> forall k :: 0 <= k < |sizes| ==> fresh(queue.value[k]) && Waiting(queue.value[k], cfg.cellSize)
    {
      var built: seq<DraggableShip> := [];
      slots := map[];
      for i := 0 to |sizes|
        invariant |built| == i && FleetOf(built, sizes[..i], slots)
        invariant forall k :: 0 <= k < i ==> HasImage(sizes[k])
        invariant forall k :: 0 <= k < i ==> fresh(built[k]) && built[k].size == sizes[k] && Waiting(built[k], cfg.cellSize)
      {
        var ship := DraggableShip.Create(sizes[i], MAIN_X, MAIN_Y, cfg.cellSize);
        if ship == null {
          return None, slots;
        }
        built := built + [ship];
        slots := slots[ship := i];
      }
      assert sizes[..|sizes|] == sizes;
      return Some(built), slots;
    }

    /**
      setup_ships: the fleet's ships become the queue and the first of them
      the active ship. A size without a sprite raises ValueError before the
      queue is assigned, so nothing changes (false).
    */
    method SetupShips() returns (ok: bool)
      requires cfg.Valid() && activeShip == null && placedShips == [] && !readyToStart
      modifies this`activeShip, this`previewShip, this`shipQueue, this`fleet, this`boards, this`spans, this`slot, this`roster
      ensures ok <==> AllHaveImages(cfg.shipSizes)
      ensures ok ==> Valid() && placedShips == [] && fleet == cfg.shipSizes && boards == [state.playerBoard] && spans == []
      ensures !ok ==> unchanged(this)
    {
      var queue, slots := BuildQueue(cfg.shipSizes);
      if queue.None? {
        return false;
      }
      Enlist(queue.value, cfg.shipSizes, slots);
      return true;
    }

    /** The assignments of setup_ships once the queue is built: the round starts on the current board. */
    method Enlist(queue: seq<DraggableShip>, sizes: seq<int>, ghost slots: map<DraggableShip, int>)
      requires FleetOf(queue, sizes, slots) && activeShip == null && placedShips == [] && !readyToStart
      modifies this`activeShip, this`previewShip, this`shipQueue, this`fleet, this`boards, this`spans, this`slot, this`roster, queue`rect
      ensures Valid() && placedShips == [] && fleet == sizes && boards == [state.playerBoard] && spans == []
      ensures Lineup() == queue
    {
      FleetDistinct(queue, sizes, slots);
      shipQueue := queue;
      slot := slots;
      roster := queue;
      fleet := sizes;
      boards := [state.playerBoard];
      spans := [];
      Advance();
    }

    /**
      __init__: an empty screen, then setup_ships. None when setup_ships
      raises, which happens for a fleet holding a size without a sprite.
    */
    static method Create(state: GameState, cfg: Config) returns (p: PlacingLogic?)
      requires cfg.Valid()
      ensures p == null <==> !AllHaveImages(cfg.shipSizes)
      ensures p != null ==> fresh(p) && p.state == state && p.cfg == cfg && p.Valid() && !p.readyToStart &&
                            p.placedShips == [] && p.fleet == cfg.shipSizes && p.boards == [state.playerBoard]
    {
      p := new PlacingLogic(state, cfg);
      var ok := p.SetupShips();
      if !ok {
        p := null;
      }
    }

    /**
      reset: empties the screen and sets the fleet up again; the board is
      left as it is.
    */
    method Reset() returns (ok: bool)
      requires cfg.Valid()
      modifies this`activeShip, this`previewShip, this`shipQueue, this`placedShips, this`readyToStart, this`fleet, this`boards, this`spans, this`slot, this`roster
      ensures ok <==> AllHaveImages(cfg.shipSizes)
      ensures ok ==> Valid() && !readyToStart && placedShips == [] && fleet == cfg.shipSizes && boards == [state.playerBoard]
      ensures !ok ==> activeShip == null && previewShip == null && shipQueue == [] && placedShips == [] && !readyToStart
    {
      activeShip := null;
      previewShip := null;
      shipQueue := [];
      placedShips := [];
      readyToStart := false;
      ok := SetupShips();
    }

    /**
      try_place_on_grid: the cells the ship's centre aims at, checked for
      fitting the grid and then cell by cell for being Empty; when all are,
      they become SHIP cells and the ship's coordinates. The outcome is
      exactly PlacementSpan on the board before the call.
    */
    method TryPlaceOnGrid(ship: DraggableShip) returns (placed: bool)
      requires cfg.Valid() && IsBoard(state.playerBoard, cfg.gridSize) && HasImage(ship.size)
      modifies state`playerBoard, ship`coords
      ensures var r := PlacementSpan(old(state.playerBoard), cfg.gridSize, cfg.cellSize, gridOffsetX, gridOffsetY,
                                     ship.orientation, ship.size, ship.rect.CenterX(), ship.rect.CenterY());
              (placed <==> r.Some?) &&
              (placed ==> state.playerBoard == SetAll(old(state.playerBoard), r.value, Ship) && ship.coords == r.value) &&
              (!placed ==> state.playerBoard == old(state.playerBoard) && ship.coords == old(ship.coords))
    {
      var board := state.playerBoard;
      var r := FindPlacement(board, cfg.gridSize, cfg.cellSize, gridOffsetX, gridOffsetY,
                             ship.orientation, ship.size, ship.rect.CenterX(), ship.rect.CenterY());
      if r.None? {
        return false;
      }
      state.playerBoard := WriteSpan(board, r.value, Ship);
      ship.Place(r.value);
      return true;
    }

    /** No ship of the round is in two places: the active ship is neither placed nor queued, and the queue repeats no ship. */
    lemma ActiveApart()
      requires Accounting() && activeShip != null
      ensures activeShip !in placedShips && activeShip !in shipQueue && NoDup(shipQueue)
      ensures HasImage(activeShip.size) && activeShip.cellSize > 0
    {
      FleetDistinct(roster, fleet, slot);
      AppendAssoc(placedShips, [activeShip], shipQueue);
      NoDupAppend(placedShips + [activeShip], shipQueue);
      NoDupAppend(placedShips, [activeShip]);
      assert (placedShips + [activeShip])[|placedShips|] == activeShip;
      assert roster[|placedShips|] == activeShip;
    }

    /** The cells the active ship's sprite aims at on the current board, as try_place_on_grid finds them. */
    function Aim(): Option<seq<Coord>>
      requires activeShip != null && HasImage(activeShip.size) && cfg.cellSize > 0
      reads this`activeShip, this`gridOffsetX, this`gridOffsetY, state`playerBoard, activeShip`rect, activeShip`orientation, cfg`gridSize, cfg`cellSize
    {
      PlacementSpan(state.playerBoard, cfg.gridSize, cfg.cellSize, gridOffsetX, gridOffsetY,
                    activeShip.orientation, activeShip.size, activeShip.rect.CenterX(), activeShip.rect.CenterY())
    }

    /**
      The success branch of a drop: the active ship is placed, joins the
      placed ships and the next ship becomes active; once none is left the
      screen is ready. When the ship does not fit nothing changes. Either
      way the ship bookkeeping and the board history are kept.
    */
    method PlaceActive() returns (ok: bool)
      requires Valid() && activeShip != null && HasImage(activeShip.size)
      requires cfg.Valid() && IsBoard(state.playerBoard, cfg.gridSize)
      modifies this`placedShips, this`activeShip, this`previewShip, this`shipQueue, this`readyToStart, this`boards, this`spans
      modifies state`playerBoard, activeShip`coords, shipQueue`rect
      ensures Valid() && Lineup() == old(Lineup()) && fleet == old(fleet)
      ensures old(activeShip).rect == old(activeShip.rect)
      ensures var a := old(activeShip);
              var r := old(Aim());
              (ok <==> r.Some?) &&
              (ok ==> placedShips == old(placedShips) + [a] && a.coords == r.value &&
                      state.playerBoard == SetAll(old(state.playerBoard), r.value, Ship) &&
                      (readyToStart <==> activeShip == null)) &&
              (!ok ==> placedShips == old(placedShips) && activeShip == a && state.playerBoard == old(state.playerBoard) &&
                       readyToStart == old(readyToStart))
    {
      var a := activeShip;
      ActiveApart();
      ghost var before := state.playerBoard;
      ok := TryPlaceOnGrid(a);
      if ok {
        PlacementStep(before, cfg.gridSize, cfg.cellSize, gridOffsetX, gridOffsetY,
                      a.orientation, a.size, a.rect.CenterX(), a.rect.CenterY());
        CommitPlaced();
      }
    }

    /**
      The bookkeeping after the active ship was written on the board: it
      joins the placed ships, the board joins the history and the next ship
      comes up.
    */
    method CommitPlaced()
      requires Accounting() && activeShip != null && activeShip !in placedShips && NoDup(shipQueue)
      requires Stacked(boards, spans) && ShipsOn(placedShips, spans)
      requires Step(boards[|spans|], activeShip.coords, state.playerBoard) && |activeShip.coords| == activeShip.size
      modifies this`placedShips, this`activeShip, this`previewShip, this`shipQueue, this`readyToStart, this`boards, this`spans
      modifies shipQueue`rect
      ensures Valid() && Lineup() == old(Lineup())
      ensures placedShips == old(placedShips) + [old(activeShip)] && (readyToStart <==> activeShip == null)
    {
      ghost var a := activeShip;
      AppendAssoc(placedShips, [a], shipQueue);
      RecordActive();
      PromoteNext();
    }

    /** The active ship joins the placed ships and the board joins the history. */
    method RecordActive()
      requires activeShip != null && activeShip !in placedShips
      requires Stacked(boards, spans) && ShipsOn(placedShips, spans)
      requires Step(boards[|spans|], activeShip.coords, state.playerBoard) && |activeShip.coords| == activeShip.size
      modifies this`placedShips, this`boards, this`spans
      ensures placedShips == old(placedShips) + [activeShip] && History()
    {
      var a := activeShip;
      StackedSnoc(boards, spans, a.coords, state.playerBoard);
      placedShips := placedShips + [a];
      boards := boards + [state.playerBoard];
      spans := spans + [a.coords];
    }

    /**
      What follows a successful placement, once the active ship is among the
      placed ones: the next ship becomes active, and once neither an active
      nor a preview ship is left the screen is ready.
    */
    method PromoteNext()
      requires placedShips + shipQueue == roster && FleetOf(roster, fleet, slot) && NoDup(shipQueue) && !readyToStart
      modifies this`activeShip, this`previewShip, this`shipQueue, this`readyToStart, shipQueue`rect
      ensures Accounting() && (readyToStart <==> activeShip == null)
    {
      Advance();
      if activeShip == null && previewShip == null {
        readyToStart := true;
      }
    }

    /**
      The drop that ends a drag (mouse button 1 released): dragging stops;
      the cell under the sprite's centre, moved back by half the ship, must
      lie on the grid, and then the sprite snaps to that cell and the ship
      is placed as PlaceActive describes. A drop off the grid, or a
      placement that fails, calls snap_back, which calls a method
      DraggableShip does not have: that raises AttributeError, modelled as
      `crashed`.
    */
    method DropActive() returns (crashed: bool)
      requires Valid() && activeShip != null && HasImage(activeShip.size) && cfg.Valid() && IsBoard(state.playerBoard, cfg.gridSize)
      modifies this`placedShips, this`activeShip, this`previewShip, this`shipQueue, this`readyToStart, this`boards, this`spans
      modifies state`playerBoard, activeShip`coords, activeShip`rect, activeShip`dragging, activeShip`dragOffset, shipQueue`rect
      ensures Valid() && Lineup() == old(Lineup()) && !old(activeShip).dragging
      ensures crashed <==> old(DropAim()).None?
      ensures old(Snap()).Some? ==> old(activeShip).rect == old(Snap()).value
      ensures !crashed ==> placedShips == old(placedShips) + [old(activeShip)] &&
                           state.playerBoard == SetAll(old(state.playerBoard), old(DropAim()).value, Ship)
      ensures !crashed ==> (readyToStart <==> activeShip == null) && old(activeShip).coords == old(DropAim()).value
      ensures crashed ==> placedShips == old(placedShips) && state.playerBoard == old(state.playerBoard) &&
                          activeShip == old(activeShip) && readyToStart == old(readyToStart)
    {
      ghost var a, aim := activeShip, DropAim();
      var inGrid := Release();
      if !inGrid {
        return true;
      }
      assert Aim() == aim;
      var ok := PlaceActive();
      assert ok ==> a.coords == aim.value;
      crashed := !ok;
    }

    /** Where a drop would snap the active sprite: SnapRect of its current rectangle. */
    function Snap(): Option<Rect>
      requires activeShip != null && cfg.cellSize > 0
      reads this`activeShip, this`gridOffsetX, this`gridOffsetY, activeShip`rect, activeShip`orientation, cfg`gridSize, cfg`cellSize
    {
      SnapRect(activeShip.rect, cfg.gridSize, cfg.cellSize, gridOffsetX, gridOffsetY, activeShip.orientation, activeShip.size)
    }

    /** The cells a drop would fill: the placement aimed at from the snapped sprite; None when either fails. */
    function DropAim(): Option<seq<Coord>>
      requires activeShip != null && HasImage(activeShip.size) && cfg.cellSize > 0
      reads this`activeShip, this`gridOffsetX, this`gridOffsetY, state`playerBoard, activeShip`rect, activeShip`orientation, cfg`gridSize, cfg`cellSize
    {
      var snap := Snap();
      if snap.None? then None
      else PlacementSpan(state.playerBoard, cfg.gridSize, cfg.cellSize, gridOffsetX, gridOffsetY,
                         activeShip.orientation, activeShip.size, snap.value.CenterX(), snap.value.CenterY())
    }

    /**
      The release of the active ship: dragging stops and, when the cell
      under its sprite's centre, moved back by half the ship, is on the
      grid, the sprite's top-left corner moves to that cell, so that it aims
      where the drop said.
    */
    method Release() returns (inGrid: bool)
      requires Valid() && activeShip != null && HasImage(activeShip.size) && cfg.cellSize > 0
      modifies activeShip`rect, activeShip`dragging, activeShip`dragOffset
      ensures Valid() && Lineup() == old(Lineup()) && state.playerBoard == old(state.playerBoard)
      ensures !activeShip.dragging && (inGrid <==> old(Snap()).Some?)
      ensures activeShip.rect == (if inGrid then old(Snap()).value else old(activeShip.rect))
      ensures inGrid ==> Aim() == old(DropAim())
    {
      var a := activeShip;
      a.StopDragging();
      var cs := cfg.cellSize;
      var p := Anchor(a.rect.CenterX(), a.rect.CenterY(), gridOffsetX, gridOffsetY, cs, a.orientation, a.size);
      inGrid := InBounds(cfg.gridSize, p);
      if inGrid {
        a.rect := a.rect.WithTopLeft(gridOffsetX + p.1 * cs, gridOffsetY + p.0 * cs);
      }
    }

    /**
      handle_event: button 1 pressed on the active ship starts a drag,
      motion moves a dragged ship with the mouse, button 1 released ends
      the drag with DropActive, and R turns the active ship. Every other
      event changes nothing.
    */
    method HandleEvent(ev: Event) returns (crashed: bool)
      requires Valid() && cfg.Valid() && IsBoard(state.playerBoard, cfg.gridSize)
      modifies this`placedShips, this`activeShip, this`previewShip, this`shipQueue, this`readyToStart, this`boards, this`spans
      modifies state`playerBoard, Active(activeShip)`coords, Active(activeShip)`rect, Active(activeShip)`dragging,
               Active(activeShip)`dragOffset, Active(activeShip)`orientation, shipQueue`rect
      ensures Valid() && Lineup() == old(Lineup())
      ensures crashed ==> ev.MouseUp? && ev.button == 1
      ensures !(ev.MouseUp? && ev.button == 1) ==>
                activeShip == old(activeShip) && placedShips == old(placedShips) && state.playerBoard == old(state.playerBoard)
      ensures ev.MouseDown? && ev.button == 1 && old(activeShip) != null && old(activeShip.rect).CollidePoint(ev.x, ev.y) ==>
                activeShip.dragging && activeShip.dragOffset == (old(activeShip.rect).x - ev.x, old(activeShip.rect).y - ev.y)
      ensures ev.KeyDown? && ev.key == KeyR && old(activeShip) != null ==> activeShip.orientation == Flip(old(activeShip.orientation))
      ensures ev.MouseMotion? && old(activeShip) != null && old(activeShip.dragging) ==>
                activeShip.rect == old(activeShip.rect).WithTopLeft(ev.x + old(activeShip.dragOffset).0,
                                                                    ev.y + old(activeShip.dragOffset).1)
      ensures var a := old(activeShip);
              ev.MouseUp? && ev.button == 1 && a != null && old(a.dragging) && HasImage(a.size) ==>
                !a.dragging && (crashed <==> old(DropAim()).None?) &&
                (!crashed ==> placedShips == old(placedShips) + [a] && a.coords == old(DropAim()).value &&
                              state.playerBoard == SetAll(old(state.playerBoard), old(DropAim()).value, Ship) &&
                              (readyToStart <==> activeShip == null)) &&
                (crashed ==> placedShips == old(placedShips) && state.playerBoard == old(state.playerBoard) &&
                             activeShip == a && readyToStart == old(readyToStart))
    {
      crashed := false;
      if activeShip == null {
        return;
      }
      ActiveApart();
      var a := activeShip;
      match ev {
        case MouseDown(button, x, y) =>
          if button == 1 && a.rect.CollidePoint(x, y) {
            a.StartDragging(x, y);
          }
        case MouseMotion(x, y) =>
          if a.dragging {
            a.UpdatePosition(x, y);
          }
        case MouseUp(button, x, y) =>
          if button == 1 && a.dragging {
            crashed := DropActive();
          }
        case KeyDown(key, _) =>
          if key == KeyR {
            a.Rotate();
          }
        case OtherEvent =>
      }
    }

    /**
      The first half of undo_last_ship: the last placed ship leaves the
      list and its cells become Empty again, which gives back the board it
      was placed on; the history loses its last step.
    */
    method Unplace() returns (last: DraggableShip)
      requires History() && placedShips != []
      modifies this`placedShips, this`boards, this`spans, state`playerBoard
      ensures old(placedShips) == placedShips + [last] && History()
      ensures boards == old(boards[..|spans|]) && spans == old(spans[..|spans| - 1])
      ensures state.playerBoard == old(boards[|spans| - 1])
    {
      var k := |placedShips|;
      last := placedShips[k - 1];
      ghost var prev := boards[k - 1];
      assert Step(prev, spans[k - 1], state.playerBoard);
      SetAllUndo(prev, last.coords);
      forall j | 0 <= j < |last.coords|
        ensures OnBoard(state.playerBoard, last.coords[j])
      {
        assert OnBoard(prev, last.coords[j]);
      }
      state.playerBoard := WriteSpan(state.playerBoard, last.coords, Empty);
      placedShips := placedShips[..k - 1];
      boards := boards[..k];
      spans := spans[..k - 1];
    }

    /**
      The second half of undo_last_ship: the active ship, if any, goes back
      to the front of the queue; the unplaced ship becomes active in the
      main area; the queue's front becomes the preview in the preview area;
      the screen is no longer ready.
    */
    method Requeue(last: DraggableShip)
      requires (placedShips + [last]) + (Active(activeShip) + shipQueue) == roster && FleetOf(roster, fleet, slot)
      modifies this`activeShip, this`previewShip, this`shipQueue, this`readyToStart, last`rect, Active(activeShip)`rect, shipQueue`rect
      ensures Accounting() && !readyToStart && activeShip == last && shipQueue == Active(old(activeShip)) + old(shipQueue)
      ensures last.rect == old(last.rect).WithTopLeft(MAIN_X, MAIN_Y)
      ensures shipQueue != [] ==> shipQueue[0].rect == old((Active(activeShip) + shipQueue)[0].rect).WithTopLeft(PREVIEW_X, PREVIEW_Y)
    {
      FleetDistinct(roster, fleet, slot);
      AppendAssoc(placedShips, [last], Active(activeShip) + shipQueue);
      ghost var rest := Active(activeShip) + shipQueue;
      NoDupAppend(placedShips, [last] + rest);
      forall j | 0 <= j < |rest| ensures rest[j] != last {
        assert ([last] + rest)[0] == last && ([last] + rest)[j + 1] == rest[j];
      }
      if activeShip != null {
        shipQueue := [activeShip] + shipQueue;
      }
      activeShip := last;
      last.rect := last.rect.WithTopLeft(MAIN_X, MAIN_Y);
      if shipQueue != [] {
        previewShip := shipQueue[0];
        previewShip.rect := previewShip.rect.WithTopLeft(PREVIEW_X, PREVIEW_Y);
      } else {
        previewShip := null;
      }
      readyToStart := false;
    }

    /**
      undo_last_ship: with no ship placed nothing happens; otherwise the
      last placed ship is taken off the board, which becomes the board that
      ship was placed on, and is the active ship again, in front of the
      ships still to place.
    */
    method UndoLastShip()
      requires Valid()
      modifies this`placedShips, this`activeShip, this`previewShip, this`shipQueue, this`readyToStart, this`boards, this`spans
      modifies state`playerBoard, placedShips`rect, Active(activeShip)`rect, shipQueue`rect
      ensures Valid() && Lineup() == old(Lineup())
      ensures old(placedShips) == [] ==> placedShips == [] && activeShip == old(activeShip) && state.playerBoard == old(state.playerBoard)
      ensures old(placedShips) != [] ==>
                !readyToStart && old(placedShips) == placedShips + Active(activeShip) &&
                shipQueue == Active(old(activeShip)) + old(shipQueue) &&
                state.playerBoard == old(boards[|spans| - 1]) && boards == old(boards[..|spans|])
      ensures old(placedShips) != [] ==>
                activeShip.rect == old(placedShips[|placedShips| - 1].rect).WithTopLeft(MAIN_X, MAIN_Y) &&
                (shipQueue != [] ==> shipQueue[0].rect == old((Active(activeShip) + shipQueue)[0].rect).WithTopLeft(PREVIEW_X, PREVIEW_Y))
    {
      if placedShips == [] {
        return;
      }
      var last := Unplace();
      assert last == old(placedShips)[|placedShips|];
      Requeue(last);
    }

    /**
      reset_all followed by its callback, this screen's reset: a new match
      on an empty player board, a freshly placed computer fleet, and the
      fleet set up again for placement.
    */
    method RestartMatch(draws: seq<seq<Draw>>) returns (ok: bool)
      requires cfg.Valid() && PlacementDraws(cfg.gridSize, cfg.shipSizes, draws)
      modifies state`playerBoard, state`computerBoard, state`playerAttacks, state`playerShips, state`computerShips
      modifies state`userText, state`playerName, state`shipIndex, state`aiTurnPending, state`aiTurnStartTime
      modifies state`aiTargets, state`lastPlayerHit, state`playerShots, state`playerHits, state`aiShots, state`aiHits
      modifies state`scene, state`showRestartModal, state`showQuitModal
      modifies this`activeShip, this`previewShip, this`shipQueue, this`placedShips, this`readyToStart, this`fleet, this`boards, this`spans, this`slot, this`roster
      ensures state.BoardsReset(cfg.gridSize, cfg.shipSizes, draws) && state.MatchCleared()
      ensures ok <==> AllHaveImages(cfg.shipSizes)
      ensures ok ==> Valid() && !readyToStart && placedShips == [] && boards == [CreateBoard(cfg.gridSize)]
    {
      state.ResetAll(cfg.gridSize, cfg.shipSizes, draws);
      ok := Reset();
    }

    /**
      on_ready_pressed: in pass-and-play, the first player's Ready (stage
      0) stores their board and ship cells in seat 0 and shows the hand-over
      modal; the second player's Ready (stage 2) stores seat 1 and starts
      the match on seat 0's board and attacks. In any other stage, as in a
      single-player game, the ships on the board are counted and play
      begins; in a network game the opponent is told instead and the screen
      waits for theirs.
    */
    method OnReadyPressed()
      requires state.passPlayMode && state.passPlayStage == 0 ==> |state.passPlayBoards| >= 1 && |state.passPlayPlacedShips| >= 1
      requires state.passPlayMode && state.passPlayStage == 2 ==>
                 |state.passPlayBoards| >= 2 && |state.passPlayPlacedShips| >= 2 && |state.passPlayAttacks| >= 1
      modifies state`passPlayBoards, state`passPlayPlacedShips, state`passPlayStage, state`showPassModal, state`currentPlayer
      modifies state`playerBoard, state`playerAttacks, state`playerShips, state`scene, state`placedShips
      modifies state`localReady, state`waitingForSync, Channels(state.network)`outbox
      ensures var stage := old(state.passPlayStage);
              if old(state.passPlayMode) && stage == 0 then
                state.passPlayStage == 1 && state.showPassModal && state.scene == old(state.scene) &&
                state.passPlayBoards == old(state.passPlayBoards)[0 := old(state.playerBoard)] &&
                state.passPlayPlacedShips == old(state.passPlayPlacedShips)[0 := CoordsOf(placedShips)]
              else if old(state.passPlayMode) && stage == 2 then
                state.passPlayStage == 3 && state.currentPlayer == 0 && state.scene == Playing &&
                state.passPlayBoards == old(state.passPlayBoards)[1 := old(state.playerBoard)] &&
                state.passPlayPlacedShips == old(state.passPlayPlacedShips)[1 := CoordsOf(placedShips)] &&
                state.playerBoard == old(state.passPlayBoards[0]) && state.playerAttacks == old(state.passPlayAttacks[0]) &&
                state.playerShips == CountShips(state.playerBoard)
              else if state.network == null then
                state.scene == Playing && state.playerShips == CountShips(old(state.playerBoard)) &&
                state.placedShips == placedShips && state.playerBoard == old(state.playerBoard)
              else
                state.network.outbox == old(state.network.outbox) + [PlacementDone] &&
                state.localReady && state.waitingForSync && state.placedShips == placedShips &&
                state.scene == old(state.scene) && state.playerBoard == old(state.playerBoard)
    {
      if state.passPlayMode && state.passPlayStage == 0 {
        SaveSeat(0);
        state.passPlayStage := 1;
        state.showPassModal := true;
        return;
      }
      if state.passPlayMode && state.passPlayStage == 2 {
        SaveSeat(1);
        StartPassPlay();
        return;
      }
      if state.network == null {
        state.playerShips := CountShips(state.playerBoard);
        state.placedShips := placedShips;
        state.scene := Playing;
      } else {
        state.network.Send(PlacementDone);
        state.localReady := true;
        state.waitingForSync := true;
        state.placedShips := placedShips;
      }
    }

    /** A pass-and-play seat stores a copy of the board and of each placed ship's cells. */
    method SaveSeat(seat: nat)
      requires seat < |state.passPlayBoards| && seat < |state.passPlayPlacedShips|
      modifies state`passPlayBoards, state`passPlayPlacedShips
      ensures state.passPlayBoards == old(state.passPlayBoards)[seat := state.playerBoard]
      ensures state.passPlayPlacedShips == old(state.passPlayPlacedShips)[seat := CoordsOf(placedShips)]
    {
      state.passPlayBoards := state.passPlayBoards[seat := state.playerBoard];
      state.passPlayPlacedShips := state.passPlayPlacedShips[seat := CoordsOf(placedShips)];
    }

    /** The start of a pass-and-play match: player 0 moves first, on seat 0's board and attacks. */
    method StartPassPlay()
      requires |state.passPlayBoards| >= 1 && |state.passPlayAttacks| >= 1
      modifies state`passPlayStage, state`currentPlayer, state`playerBoard, state`playerAttacks, state`playerShips, state`scene
      ensures state.passPlayStage == 3 && state.currentPlayer == 0 && state.scene == Playing
      ensures state.playerBoard == state.passPlayBoards[0] && state.playerAttacks == state.passPlayAttacks[0]
      ensures state.playerShips == CountShips(state.playerBoard)
    {
      state.passPlayStage := 3;
      state.currentPlayer := 0;
      state.playerBoard := state.passPlayBoards[0];
      state.playerAttacks := state.passPlayAttacks[0];
      state.playerShips := CountShips(state.playerBoard);
      state.scene := Playing;
    }

    /**
      update: while a network game waits for both players' placements, one
      message is read; "placement_done" marks the opponent ready and
      "disconnect" marks them gone; once both sides are ready the ships on
      the board are counted and play begins. Without a message nothing
      changes.
    */
    method Update()
      modifies Channels(state.network)`inbox, state`remoteReady, state`opponentLeft, state`waitingForSync, state`playerShips, state`scene
      ensures old(state.network) == null || !old(state.waitingForSync) || old(state.network.inbox) == [] ==>
                state.remoteReady == old(state.remoteReady) && state.opponentLeft == old(state.opponentLeft) &&
                state.waitingForSync == old(state.waitingForSync) && state.scene == old(state.scene) &&
                state.playerShips == old(state.playerShips) && state.network == old(state.network) &&
                (state.network != null ==> state.network.inbox == old(state.network.inbox))
      ensures old(state.network) != null && old(state.waitingForSync) && old(state.network.inbox) != [] ==>
                var m := old(state.network.inbox[0]);
                state.network.inbox == old(state.network.inbox[1..]) &&
                state.remoteReady == (old(state.remoteReady) || m == PlacementDone) &&
                state.opponentLeft == (old(state.opponentLeft) || m == Disconnect) &&
                (state.localReady && state.remoteReady ==>
                   !state.waitingForSync && state.playerShips == CountShips(state.playerBoard) && state.scene == Playing) &&
                (!(state.localReady && state.remoteReady) ==>
                   state.waitingForSync && state.scene == old(state.scene) && state.playerShips == old(state.playerShips))
    {
      if state.network == null || !state.waitingForSync {
        return;
      }
      var msg := state.network.Recv();
      if msg.None? {
        return;
      }
      if msg.value == PlacementDone {
        state.remoteReady := true;
      }
      if msg.value == Disconnect {
        state.opponentLeft := true;
      }
      if state.localReady && state.remoteReady {
        state.waitingForSync := false;
        state.playerShips := CountShips(state.playerBoard);
        state.scene := Playing;
      }
    }
  }
}
