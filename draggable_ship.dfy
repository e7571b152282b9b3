/**
  A ship sprite the player drags onto the grid (game/draggable_ship.py).

  Only the sprite's bounding rectangle is modelled: the image itself is
  drawing. The source builds a horizontal base image (size cells wide, one
  cell high) and, on every rotation, turns that base image by +90 or -90
  degrees; both turns give a vertical rectangle, so after a second rotation
  the orientation reads 'h' while the rectangle stays one cell wide.
*/
module DraggableShipModel {
  import opened Wrappers
  import opened BoardHelpers

  /** The sizes that have a sprite (SHIP_IMAGE_FILES). */
  predicate HasImage(size: int) {
    size == 3 || size == 4 || size == 5
  }

  /** A pygame rectangle: top-left corner and size, with its integer centre. */
  datatype Rect = Rect(x: int, y: int, w: int, h: int) {
    function CenterX(): int { x + w / 2 }
    function CenterY(): int { y + h / 2 }

    /** collidepoint: the point lies inside, the right and bottom edges excluded. */
    predicate CollidePoint(px: int, py: int) {
      x <= px < x + w && y <= py < y + h
    }

    function WithTopLeft(nx: int, ny: int): Rect { Rect(nx, ny, w, h) }

    /** The rectangle of size w by h whose centre is (cx, cy), as get_rect(center=...) builds it. */
    static function Centered(cx: int, cy: int, w: int, h: int): (r: Rect)
      requires w >= 0 && h >= 0
      ensures r.CenterX() == cx && r.CenterY() == cy && r.w == w && r.h == h
    {
      Rect(cx - w / 2, cy - h / 2, w, h)
    }
  }

  function Flip(o: Orientation): (o': Orientation)
    ensures o' != o
  {
    if o == H then V else H
  }

  /**
    The grid cell under a point, moved back by half the ship along its
    orientation: the first cell of the span a drop at that point aims for.
    Python's // floors; so does Dafny's / for the positive cell size.
  */
  function Anchor(px: int, py: int, offsetX: int, offsetY: int, cs: int, o: Orientation, size: int): Coord
    requires cs > 0
  {
    var col := (px - offsetX) / cs;
    var row := (py - offsetY) / cs;
    if o == H then (row, col - size / 2) else (row - size / 2, col)
  }

  /** The source's bounds test for a span of `size` cells from `a`. */
  predicate SpanFits(n: int, o: Orientation, a: Coord, size: int) {
    if o == H then !(a.1 < 0 || a.1 + size > n || a.0 < 0 || a.0 >= n)
    else !(a.0 < 0 || a.0 + size > n || a.1 < 0 || a.1 >= n)
  }

  /** For a non-empty span the bounds test holds exactly when every cell of the span is on the grid. */
  lemma SpanFitsIff(n: int, o: Orientation, a: Coord, size: nat)
    requires size >= 1
    ensures SpanFits(n, o, a, size) <==> forall k :: 0 <= k < size ==> InBounds(n, SpanCells(o, a.0, a.1, size)[k])
  {
    var span := SpanCells(o, a.0, a.1, size);
    if !SpanFits(n, o, a, size) {
      if o == H {
        if a.1 < 0 || a.0 < 0 || a.0 >= n {
          assert !InBounds(n, span[0]);
        } else {
          assert !InBounds(n, span[size - 1]);
        }
      } else {
        if a.0 < 0 || a.1 < 0 || a.1 >= n {
          assert !InBounds(n, span[0]);
        } else {
          assert !InBounds(n, span[size - 1]);
        }
      }
    }
  }

  class DraggableShip {
    const size: int
    /** The cell size in force when the sprite was scaled. */
    const cellSize: int
    var orientation: Orientation
    var rect: Rect
    var dragging: bool
    var dragOffset: (int, int)
    var coords: seq<Coord>

    /** A ship of a size that has a sprite, horizontal, with its top-left at (x, y). */
    constructor (size: int, x: int, y: int, cellSize: int)
      requires HasImage(size) && cellSize > 0
      ensures this.size == size && this.cellSize == cellSize
      ensures orientation == H && rect == Rect(x, y, size * cellSize, cellSize)
      ensures !dragging && dragOffset == (0, 0) && coords == []
    {
      this.size := size;
      this.cellSize := cellSize;
      orientation := H;
      rect := Rect(x, y, size * cellSize, cellSize);
      dragging := false;
      dragOffset := (0, 0);
      coords := [];
    }

    /**
      The constructor's size check: a size without a sprite raises
      ValueError, modelled as no ship (null); any other size gives a fresh
      horizontal ship at (x, y).
    */
    static method Create(size: int, x: int, y: int, cellSize: int) returns (s: DraggableShip?)
      requires cellSize > 0
      ensures s == null <==> !HasImage(size)
      ensures s != null ==> fresh(s) && s.size == size && s.cellSize == cellSize &&
                            s.orientation == H && s.rect == Rect(x, y, size * cellSize, cellSize) &&
                            !s.dragging && s.dragOffset == (0, 0) && s.coords == []
    {
      if HasImage(size) {
        s := new DraggableShip(size, x, y, cellSize);
      } else {
        s := null;
      }
    }

    /**
      rotate: toggles the orientation and re-centres the turned sprite on
      the old centre. Either turn of the horizontal base image is one cell
      wide and `size` cells high.
    */
    method Rotate()
      requires HasImage(size) && cellSize > 0
      modifies this`orientation, this`rect
      ensures orientation == Flip(old(orientation))
      ensures rect.w == cellSize && rect.h == size * cellSize
      ensures rect.CenterX() == old(rect.CenterX()) && rect.CenterY() == old(rect.CenterY())
    {
      orientation := if orientation == H then V else H;
      var oldCenter := (rect.CenterX(), rect.CenterY());
      rect := Rect.Centered(oldCenter.0, oldCenter.1, cellSize, size * cellSize);
    }

    /** start_dragging: remembers where the sprite sits relative to the mouse. */
    method StartDragging(mx: int, my: int)
      modifies this`dragging, this`dragOffset
      ensures dragging && dragOffset == (rect.x - mx, rect.y - my)
    {
      dragging := true;
      dragOffset := (rect.x - mx, rect.y - my);
    }

    /** stop_dragging */
    method StopDragging()
      modifies this`dragging, this`dragOffset
      ensures !dragging && dragOffset == (0, 0)
    {
      dragging := false;
      dragOffset := (0, 0);
    }

    /**
      update_position: while dragging, the sprite keeps its offset from the
      mouse, so after StartDragging(mx0, my0) it has moved by exactly the
      mouse's displacement; otherwise nothing moves.
    */
    method UpdatePosition(mx: int, my: int)
      modifies this`rect
      ensures dragging ==> rect == old(rect).WithTopLeft(mx + dragOffset.0, my + dragOffset.1)
      ensures !dragging ==> rect == old(rect)
    {
      if dragging {
        var (ox, oy) := dragOffset;
        rect := rect.WithTopLeft(mx + ox, my + oy);
      }
    }

    /** place: records the cells the ship now occupies. */
    method Place(cells: seq<Coord>)
      modifies this`coords
      ensures coords == cells
    {
      coords := cells;
    }

    /** The first cell of the span a drop at the sprite's centre aims for. */
    function DropAnchor(offsetX: int, offsetY: int, cs: int): Coord
      reads this
      requires cs > 0
    {
      Anchor(rect.CenterX(), rect.CenterY(), offsetX, offsetY, cs, orientation, size)
    }

    /**
      get_preview_cells: the `size` cells a drop at the sprite's centre
      would occupy, or None when that span leaves the n-by-n grid.
    */
    function PreviewCells(offsetX: int, offsetY: int, cs: int, n: int): (cells: Option<seq<Coord>>)
      reads this
      requires cs > 0 && HasImage(size)
      ensures var a := DropAnchor(offsetX, offsetY, cs);
              cells.None? <==> exists k :: 0 <= k < size && !InBounds(n, SpanCells(orientation, a.0, a.1, size)[k])
      ensures cells.Some? ==>
                |cells.value| == size && Increasing(cells.value) &&
                (forall k :: 0 <= k < size ==> InBounds(n, cells.value[k]))
      ensures cells.Some? ==>
                cells.value[size / 2] == ((rect.CenterY() - offsetY) / cs, (rect.CenterX() - offsetX) / cs)
      ensures cells.Some? ==> Line(cells.value, orientation, DropAnchor(offsetX, offsetY, cs))
    {
      var a := DropAnchor(offsetX, offsetY, cs);
      SpanFitsIff(n, orientation, a, size);
      if SpanFits(n, orientation, a, size) then Some(SpanCells(orientation, a.0, a.1, size)) else None
    }
  }
}
