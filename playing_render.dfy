/**
  Which sunk ships the playing screen draws face up (screens/playing_render.py).

  In pass-and-play each placed ship is shown once every one of its cells
  has been hit. Against the computer the ships' positions are not kept, so
  the screen groups the HIT cells of the computer's board into clusters of
  4-adjacent cells by a breadth-first search and draws a cluster that
  looks like a whole ship: three to five cells, with no untouched SHIP cell
  just beyond either end. Only the decisions are modelled; the sprites and
  their drawing are not.
*/
module PlayingRenderModel {
  import opened Wrappers
  import opened BoardHelpers
  import opened DraggableShipModel

  /** A shown ship: its length, the top-left cell of its sprite and whether it lies along a row. */
  datatype Sprite = Sprite(size: int, row: int, col: int, horizontal: bool)

  // ----- minimum and maximum -----

  function Min(s: seq<int>): (m: int)
    requires s != []
    ensures (exists k :: 0 <= k < |s| && s[k] == m) && forall k :: 0 <= k < |s| ==> m <= s[k]
  {
    if |s| == 1 then s[0]
    else
      var m := Min(s[1..]);
      assert forall k :: 1 <= k < |s| ==> s[k] == s[1..][k - 1];
      if s[0] <= m then s[0] else m
  }

  function Max(s: seq<int>): (m: int)
    requires s != []
    ensures (exists k :: 0 <= k < |s| && s[k] == m) && forall k :: 0 <= k < |s| ==> s[k] <= m
  {
    if |s| == 1 then s[0]
    else
      var m := Max(s[1..]);
      assert forall k :: 1 <= k < |s| ==> s[k] == s[1..][k - 1];
      if s[0] >= m then s[0] else m
  }

  /** The rows of some cells, in order. */
  function Rows(cells: seq<Coord>): (rs: seq<int>)
    ensures |rs| == |cells| && forall k :: 0 <= k < |cells| ==> rs[k] == cells[k].0
  {
    seq(|cells|, k requires 0 <= k < |cells| => cells[k].0)
  }

  /** The columns of some cells, in order. */
  function Cols(cells: seq<Coord>): (cs: seq<int>)
    ensures |cs| == |cells| && forall k :: 0 <= k < |cells| ==> cs[k] == cells[k].1
  {
    seq(|cells|, k requires 0 <= k < |cells| => cells[k].1)
  }

  /** Every cell lies in the row of the first one. */
  predicate SameRow(cells: seq<Coord>) {
    forall k :: 0 <= k < |cells| ==> cells[k].0 == cells[0].0
  }

  /** The set of rows the cells occupy. */
  function RowSet(cells: seq<Coord>): set<int> {
    set k | 0 <= k < |cells| :: cells[k].0
  }

  /**
    The two tests of lying along a row agree on cells that are not empty:
    pass-and-play counts the distinct rows, the standard view compares each
    row with the first.
  */
  lemma RowSetSingleton(cells: seq<Coord>)
    requires cells != []
    ensures |RowSet(cells)| == 1 <==> SameRow(cells)
  {
    var r := cells[0].0;
    assert r in RowSet(cells);
    if SameRow(cells) {
      assert RowSet(cells) == {r};
    } else {
      var k :| 0 <= k < |cells| && cells[k].0 != r;
      assert cells[k].0 in RowSet(cells);
      assert {r, cells[k].0} <= RowSet(cells);
      assert |{r, cells[k].0}| == 2;
      SubsetCard({r, cells[k].0}, RowSet(cells));
    }
  }

  lemma SubsetCard<T>(a: set<T>, b: set<T>)
    requires a <= b
    ensures |a| <= |b|
  {
    assert b == a + (b - a);
  }

  // ----- pass-and-play -----

  /** Every cell of the ship has been hit. */
  predicate AllHit(board: Board, coords: seq<Coord>)
    requires forall k :: 0 <= k < |coords| ==> OnBoard(board, coords[k])
  {
    forall k :: 0 <= k < |coords| ==> Get(board, coords[k]) == Hit
  }

  /** Every cell of every ship is on the board. */
  predicate ShipsOnBoard(board: Board, ships: seq<seq<Coord>>) {
    forall i, k :: 0 <= i < |ships| && 0 <= k < |ships[i]| ==> OnBoard(board, ships[i][k])
  }

  /** The ships whose cells are all hit, in their order. */
  function SunkShips(board: Board, ships: seq<seq<Coord>>): (sunk: seq<seq<Coord>>)
    requires ShipsOnBoard(board, ships)
    ensures forall s :: s in sunk <==> s in ships && AllHit(board, s)
    ensures |sunk| <= |ships|
    decreases |ships|
  {
    if ships == [] then []
    else
      var rest := SunkShips(board, ships[1..]);
      assert forall s :: s in ships <==> s == ships[0] || s in ships[1..];
      if AllHit(board, ships[0]) then [ships[0]] + rest else rest
  }

  /**
    The sprite of one sunk ship in pass-and-play: its length, its top-left
    cell and whether all its cells share one row. None when the ship has no
    cells (min() of nothing raises ValueError) or no sprite of its length
    exists (the DraggableShip constructor raises ValueError).
  */
  function PassPlaySprite(coords: seq<Coord>): (r: Option<Sprite>)
    ensures r.Some? <==> coords != [] && HasImage(|coords|)
    ensures r.Some? ==> r.value.size == |coords| && (r.value.horizontal <==> SameRow(coords))
    ensures r.Some? ==> (exists k :: 0 <= k < |coords| && coords[k].0 == r.value.row) &&
                        (exists k :: 0 <= k < |coords| && coords[k].1 == r.value.col) &&
                        forall k :: 0 <= k < |coords| ==> r.value.row <= coords[k].0 && r.value.col <= coords[k].1
  {
    if coords == [] || !HasImage(|coords|) then None
    else
      RowSetSingleton(coords);
      Some(Sprite(|coords|, Min(Rows(coords)), Min(Cols(coords)), |RowSet(coords)| == 1))
  }

  /**
    The sprites of the sunk ships, drawn one after the other: every one of
    them, in order, or None as soon as one cannot be drawn.
  */
  function SpritesFor(sunk: seq<seq<Coord>>): (rs: Option<seq<Sprite>>)
    ensures rs.Some? <==> forall i :: 0 <= i < |sunk| ==> PassPlaySprite(sunk[i]).Some?
    ensures rs.Some? ==> |rs.value| == |sunk| && forall i :: 0 <= i < |sunk| ==> rs.value[i] == PassPlaySprite(sunk[i]).value
    decreases |sunk|
  {
    if sunk == [] then Some([])
    else
      var r := PassPlaySprite(sunk[0]);
      var rest := SpritesFor(sunk[1..]);
      TailAt(sunk);
      if r.None? || rest.None? then None
      else
        SpritesCons(sunk, rest.value);
        Some([r.value] + rest.value)
  }

  /** The entries after the first are the tail's, one place on. */
  lemma TailAt(sunk: seq<seq<Coord>>)
    requires sunk != []
    ensures forall i :: 1 <= i < |sunk| ==> sunk[i] == sunk[1..][i - 1]
  {
  }

  /** The first ship's sprite followed by the rest's sprites are the sprites of all the ships. */
  lemma SpritesCons(sunk: seq<seq<Coord>>, rs: seq<Sprite>)
    requires sunk != [] && PassPlaySprite(sunk[0]).Some? && |rs| == |sunk| - 1
    requires forall i :: 0 <= i < |rs| ==> PassPlaySprite(sunk[1..][i]).Some? && rs[i] == PassPlaySprite(sunk[1..][i]).value
    ensures var all := [PassPlaySprite(sunk[0]).value] + rs;
            |all| == |sunk| && forall i :: 0 <= i < |sunk| ==> PassPlaySprite(sunk[i]).Some? && all[i] == PassPlaySprite(sunk[i]).value
  {
    var all := [PassPlaySprite(sunk[0]).value] + rs;
    forall i | 0 <= i < |sunk|
      ensures PassPlaySprite(sunk[i]).Some? && all[i] == PassPlaySprite(sunk[i]).value
    {
      if i > 0 {
        assert sunk[i] == sunk[1..][i - 1] && all[i] == rs[i - 1];
      }
    }
  }

  /** What _draw_pass_play draws for one seat: the sprites of the seat's sunk ships. */
  function PassPlaySprites(board: Board, ships: seq<seq<Coord>>): Option<seq<Sprite>>
    requires ShipsOnBoard(board, ships)
  {
    SpritesFor(SunkShips(board, ships))
  }

  // ----- the standard view: clusters of hits -----

  /** The neighbour of a cell in each of the four directions the search tries, in its order. */
  function Neighbour(p: Coord, d: int): Coord
    requires 0 <= d < 4
  {
    if d == 0 then (p.0 + 1, p.1)
    else if d == 1 then (p.0 - 1, p.1)
    else if d == 2 then (p.0, p.1 + 1)
    else (p.0, p.1 - 1)
  }

  /** Two cells share a side. */
  predicate Adjacent(p: Coord, q: Coord) {
    (p.0 == q.0 && (p.1 == q.1 + 1 || q.1 == p.1 + 1)) || (p.1 == q.1 && (p.0 == q.0 + 1 || q.0 == p.0 + 1))
  }

  /** The four neighbours are exactly the adjacent cells, and adjacency goes both ways. */
  lemma NeighbourAdjacent(p: Coord, q: Coord)
    ensures Adjacent(p, q) <==> exists d :: 0 <= d < 4 && Neighbour(p, d) == q
    ensures Adjacent(p, q) <==> Adjacent(q, p)
  {
    if Adjacent(p, q) {
      if q == (p.0 + 1, p.1) { assert Neighbour(p, 0) == q; }
      else if q == (p.0 - 1, p.1) { assert Neighbour(p, 1) == q; }
      else if q == (p.0, p.1 + 1) { assert Neighbour(p, 2) == q; }
      else { assert Neighbour(p, 3) == q; }
    }
  }

  /** A HIT cell of the n-by-n board. */
  predicate Lit(board: Board, n: int, p: Coord)
    requires IsBoard(board, n)
  {
    InBounds(n, p) && board[p.0][p.1] == Hit
  }

  /** Every cell after the first touches an earlier one: the cells form one 4-connected group. */
  predicate Connected(cells: seq<Coord>) {
    forall k :: 0 < k < |cells| ==> Touches(cells, k)
  }

  /** The k-th cell is adjacent to an earlier one. */
  predicate Touches(cells: seq<Coord>, k: int)
    requires 0 <= k < |cells|
  {
    exists j :: 0 <= j < k && Adjacent(cells[j], cells[k])
  }

  /** No HIT cell next to a cell of the group is missing from it. */
  predicate Closed(board: Board, n: int, cells: seq<Coord>)
    requires IsBoard(board, n)
  {
    forall k, d :: 0 <= k < |cells| && 0 <= d < 4 && Lit(board, n, Neighbour(cells[k], d)) ==> Neighbour(cells[k], d) in cells
  }

  /** No HIT cell next to a cell of the set is missing from it. */
  predicate ClosedSet(board: Board, n: int, cells: set<Coord>)
    requires IsBoard(board, n)
  {
    forall p, d :: p in cells && 0 <= d < 4 && Lit(board, n, Neighbour(p, d)) ==> Neighbour(p, d) in cells
  }

  /** A cluster as the search leaves it: HIT cells, none twice, connected and closed. */
  predicate Component(board: Board, n: int, cells: seq<Coord>)
    requires IsBoard(board, n)
  {
    cells != [] && NoDup(cells) && Connected(cells) && Closed(board, n, cells) &&
    forall k :: 0 <= k < |cells| ==> Lit(board, n, cells[k])
  }

  predicate Components(board: Board, n: int, clusters: seq<seq<Coord>>)
    requires IsBoard(board, n)
  {
    forall i :: 0 <= i < |clusters| ==> Component(board, n, clusters[i])
  }

  /** The set of cells of a list. */
  function Elems(cells: seq<Coord>): set<Coord> {
    set p | p in cells
  }

  /** All cells of all clusters. */
  function Cells(clusters: seq<seq<Coord>>): set<Coord> {
    set c, p | c in clusters && p in c :: p
  }

  /** The clusters one after the other. */
  function Flatten(clusters: seq<seq<Coord>>): seq<Coord>
    decreases |clusters|
  {
    if clusters == [] then [] else Flatten(clusters[..|clusters| - 1]) + clusters[|clusters| - 1]
  }

  /** The cells of the n-by-n grid. */
  function Grid(n: int): set<Coord> {
    set r, c | 0 <= r < n && 0 <= c < n :: (r, c)
  }

  /** Growing the list of clusters by one adds its cells. */
  lemma CellsSnoc(clusters: seq<seq<Coord>>, c: seq<Coord>)
    ensures Cells(clusters + [c]) == Cells(clusters) + Elems(c)
  {
    var cs := clusters + [c];
    assert c in cs;
    forall p | p in Cells(cs) ensures p in Cells(clusters) + Elems(c) {
      var x :| x in cs && p in x;
      if x != c { assert x in clusters; }
    }
    forall p | p in Cells(clusters) ensures p in Cells(cs) {
      var x :| x in clusters && p in x;
      assert x in cs;
    }
  }

  /** A list without repetitions, joined to one without repetitions and outside it, still has none. */
  lemma NoDupJoin(a: seq<Coord>, b: seq<Coord>)
    requires NoDup(a) && NoDup(b) && forall k :: 0 <= k < |b| ==> b[k] !in a
    ensures NoDup(a + b)
  {
    forall i, j | 0 <= i < j < |a + b| ensures (a + b)[i] != (a + b)[j] {
      if j >= |a| && i < |a| {
        assert (a + b)[j] == b[j - |a|];
        assert (a + b)[i] == a[i];
      }
    }
  }

  /** Every cell of the joined clusters is a cell of one of them, and back. */
  lemma {:induction false} FlattenCells(clusters: seq<seq<Coord>>)
    ensures forall p :: p in Flatten(clusters) <==> p in Cells(clusters)
    decreases |clusters|
  {
    if clusters != [] {
      var k := |clusters| - 1;
      FlattenCells(clusters[..k]);
      assert clusters[..k] + [clusters[k]] == clusters;
      CellsSnoc(clusters[..k], clusters[k]);
    }
  }

  /** A union of closed clusters is closed. */
  lemma ClosedUnion(board: Board, n: int, clusters: seq<seq<Coord>>)
    requires IsBoard(board, n) && Components(board, n, clusters)
    ensures ClosedSet(board, n, Cells(clusters))
  {
    forall p, d | p in Cells(clusters) && 0 <= d < 4 && Lit(board, n, Neighbour(p, d))
      ensures Neighbour(p, d) in Cells(clusters)
    {
      var x :| x in clusters && p in x;
      var i :| 0 <= i < |clusters| && clusters[i] == x;
      var k :| 0 <= k < |x| && x[k] == p;
      assert Closed(board, n, x);
      assert Neighbour(x[k], d) in x;
    }
  }

  /**
    The last step of a cluster's search: once every cell of the cluster has
    had its neighbours visited, a HIT neighbour is in the cluster, because
    a HIT neighbour in an earlier, closed cluster would have pulled this
    cluster's cell into that one.
  */
  lemma ClosedAfterSearch(board: Board, n: int, cluster: seq<Coord>, before: set<Coord>)
    requires IsBoard(board, n) && ClosedSet(board, n, before)
    requires forall k :: 0 <= k < |cluster| ==> Lit(board, n, cluster[k]) && cluster[k] !in before
    requires forall k, d :: 0 <= k < |cluster| && 0 <= d < 4 && Lit(board, n, Neighbour(cluster[k], d)) ==>
               Neighbour(cluster[k], d) in before || Neighbour(cluster[k], d) in cluster
    ensures Closed(board, n, cluster)
  {
    forall k, d | 0 <= k < |cluster| && 0 <= d < 4 && Lit(board, n, Neighbour(cluster[k], d))
      ensures Neighbour(cluster[k], d) in cluster
    {
      var p := cluster[k];
      var q := Neighbour(p, d);
      NeighbourAdjacent(p, q);
      NeighbourAdjacent(q, p);
      var e :| 0 <= e < 4 && Neighbour(q, e) == p;
      assert q in before ==> p in before;
    }
  }

  // ----- the decision for one cluster -----

  /** The rows and columns of cells on the grid lie on the grid. */
  lemma SpanBounds(n: int, cells: seq<Coord>)
    requires cells != [] && forall k :: 0 <= k < |cells| ==> InBounds(n, cells[k])
    ensures 0 <= Min(Rows(cells)) && Max(Rows(cells)) < n
    ensures 0 <= Min(Cols(cells)) && Max(Cols(cells)) < n
  {
    var a :| 0 <= a < |cells| && Rows(cells)[a] == Min(Rows(cells));
    assert InBounds(n, cells[a]);
    var b :| 0 <= b < |cells| && Rows(cells)[b] == Max(Rows(cells));
    assert InBounds(n, cells[b]);
    var c :| 0 <= c < |cells| && Cols(cells)[c] == Min(Cols(cells));
    assert InBounds(n, cells[c]);
    var d :| 0 <= d < |cells| && Cols(cells)[d] == Max(Cols(cells));
    assert InBounds(n, cells[d]);
  }

  /**
    An untouched SHIP cell lies on the grid just before the cluster's first
    or just after its last cell along its axis: along the first cell's row
    when all cells share it, along the first cell's column otherwise.
  */
  predicate ShipBeyondEnds(board: Board, n: int, cluster: seq<Coord>)
    requires IsBoard(board, n) && cluster != [] && forall k :: 0 <= k < |cluster| ==> InBounds(n, cluster[k])
  {
    SpanBounds(n, cluster);
    if SameRow(cluster) then
      var r0 := cluster[0].0;
      var lo := Min(Cols(cluster));
      var hi := Max(Cols(cluster));
      (lo - 1 >= 0 && board[r0][lo - 1] == Ship) || (hi + 1 < n && board[r0][hi + 1] == Ship)
    else
      var c0 := cluster[0].1;
      var lo := Min(Rows(cluster));
      var hi := Max(Rows(cluster));
      (lo - 1 >= 0 && board[lo - 1][c0] == Ship) || (hi + 1 < n && board[hi + 1][c0] == Ship)
  }

  /**
    The decision the standard view takes for a cluster: its size must have
    a sprite, and no untouched SHIP cell may lie beyond either end; the
    sprite then goes at the cluster's top-left cell, turned when the
    cluster does not lie along one row.
  */
  function ClusterSprite(board: Board, n: int, cluster: seq<Coord>): (r: Option<Sprite>)
    requires IsBoard(board, n) && cluster != [] && forall k :: 0 <= k < |cluster| ==> InBounds(n, cluster[k])
    ensures r.Some? <==> HasImage(|cluster|) && !ShipBeyondEnds(board, n, cluster)
    ensures r.Some? ==> r.value.size == |cluster| && (r.value.horizontal <==> SameRow(cluster))
    ensures r.Some? ==> (exists k :: 0 <= k < |cluster| && cluster[k].0 == r.value.row) &&
                        (exists k :: 0 <= k < |cluster| && cluster[k].1 == r.value.col) &&
                        forall k :: 0 <= k < |cluster| ==> r.value.row <= cluster[k].0 && r.value.col <= cluster[k].1
  {
    if !HasImage(|cluster|) || ShipBeyondEnds(board, n, cluster) then None
    else Some(Sprite(|cluster|, Min(Rows(cluster)), Min(Cols(cluster)), SameRow(cluster)))
  }

  /** The sprites of a list of clusters, in order. */
  function SpritesOf(board: Board, n: int, clusters: seq<seq<Coord>>): seq<Sprite>
    requires IsBoard(board, n) && Components(board, n, clusters)
    decreases |clusters|
  {
    if clusters == [] then []
    else
      var last := clusters[|clusters| - 1];
      assert Component(board, n, last);
      var r := ClusterSprite(board, n, last);
      SpritesOf(board, n, clusters[..|clusters| - 1]) + (if r.Some? then [r.value] else [])
  }

  // ----- the search -----

  /** A search under way from `start`: what it has found so far are new HIT cells, connected, none twice. */
  predicate Searching(board: Board, n: int, before: set<Coord>, start: Coord, cluster: seq<Coord>, visited: set<Coord>)
    requires IsBoard(board, n)
  {
    cluster != [] && cluster[0] == start && visited == before + Elems(cluster) &&
    NoDup(cluster) && Connected(cluster) &&
    forall k :: 0 <= k < |cluster| ==> Lit(board, n, cluster[k]) && cluster[k] !in before
  }

  /** The first h cells of the cluster have had their HIT neighbours visited. */
  predicate Expanded(board: Board, n: int, cluster: seq<Coord>, h: int, visited: set<Coord>)
    requires IsBoard(board, n) && 0 <= h <= |cluster|
  {
    forall k, d :: 0 <= k < h && 0 <= d < 4 && Lit(board, n, Neighbour(cluster[k], d)) ==> Neighbour(cluster[k], d) in visited
  }

  /** Adding a HIT cell next to a cell of the cluster, and not yet visited, keeps the search's invariant. */
  lemma SearchStep(board: Board, n: int, before: set<Coord>, start: Coord, cluster: seq<Coord>, visited: set<Coord>, h: int, q: Coord)
    requires IsBoard(board, n) && Searching(board, n, before, start, cluster, visited)
    requires 0 <= h < |cluster| && Adjacent(cluster[h], q) && Lit(board, n, q) && q !in visited
    ensures Searching(board, n, before, start, cluster + [q], visited + {q})
  {
    var c := cluster + [q];
    assert q !in cluster && q !in before;
    forall i, j | 0 <= i < j < |c| ensures c[i] != c[j] {
      if j == |cluster| { assert c[i] == cluster[i]; }
    }
    forall k | 0 < k < |c| ensures Touches(c, k) {
      if k < |cluster| {
        assert Touches(cluster, k);
        var j :| 0 <= j < k && Adjacent(cluster[j], cluster[k]);
        assert c[j] == cluster[j];
      } else {
        assert c[h] == cluster[h] && c[k] == q;
      }
    }
    assert Elems(c) == Elems(cluster) + {q};
  }

  /**
    One step of the search: the four neighbours of the cell taken from the
    queue, in order; each that is on the grid, HIT and not yet visited is
    marked visited and added to both the queue and the cluster.
  */
  method VisitNeighbours(board: Board, n: nat, ghost before: set<Coord>, ghost start: Coord, ghost h: nat, p: Coord,
                         cluster0: seq<Coord>, queue0: seq<Coord>, visited0: set<Coord>)
    returns (cluster: seq<Coord>, queue: seq<Coord>, visited: set<Coord>)
    requires IsBoard(board, n) && Searching(board, n, before, start, cluster0, visited0)
    requires h < |cluster0| && cluster0[h] == p
    ensures Searching(board, n, before, start, cluster, visited)
    ensures |cluster0| <= |cluster| && cluster[..|cluster0|] == cluster0 && queue == queue0 + cluster[|cluster0|..]
    ensures visited0 <= visited && (|cluster| == |cluster0| ==> visited == visited0)
    ensures |cluster| > |cluster0| ==> cluster[|cluster0|] in Grid(n) - visited0 && cluster[|cluster0|] in visited
    ensures forall d :: 0 <= d < 4 && Lit(board, n, Neighbour(p, d)) ==> Neighbour(p, d) in visited
  {
    cluster, queue, visited := cluster0, queue0, visited0;
    for d := 0 to 4
      invariant Searching(board, n, before, start, cluster, visited)
      invariant |cluster0| <= |cluster| && cluster[..|cluster0|] == cluster0 && queue == queue0 + cluster[|cluster0|..]
      invariant visited0 <= visited && (|cluster| == |cluster0| ==> visited == visited0)
      invariant |cluster| > |cluster0| ==> cluster[|cluster0|] in Grid(n) - visited0 && cluster[|cluster0|] in visited
      invariant forall e :: 0 <= e < d && Lit(board, n, Neighbour(p, e)) ==> Neighbour(p, e) in visited
    {
      var q := Neighbour(p, d);
      NeighbourAdjacent(p, q);
      ghost var c1, q1, v1 := cluster, queue, visited;
      cluster, queue, visited := VisitOne(board, n, before, start, h, q, cluster, queue, visited);
      if cluster != c1 {
        assert cluster[..|cluster0|] == c1[..|cluster0|];
        assert cluster[|cluster0|..] == c1[|cluster0|..] + [q];
      }
      assert v1 <= visited && (Lit(board, n, q) ==> q in visited);
    }
  }

  /** One direction of a step: the neighbour joins the cluster, the queue and the visited cells when it is on the grid, HIT and new. */
  method VisitOne(board: Board, n: nat, ghost before: set<Coord>, ghost start: Coord, ghost h: nat, q: Coord,
                  cluster0: seq<Coord>, queue0: seq<Coord>, visited0: set<Coord>)
    returns (cluster: seq<Coord>, queue: seq<Coord>, visited: set<Coord>)
    requires IsBoard(board, n) && Searching(board, n, before, start, cluster0, visited0)
    requires h < |cluster0| && Adjacent(cluster0[h], q)
    ensures Searching(board, n, before, start, cluster, visited)
    ensures if Lit(board, n, q) && q !in visited0 then cluster == cluster0 + [q] && queue == queue0 + [q] && visited == visited0 + {q}
            else cluster == cluster0 && queue == queue0 && visited == visited0
  {
    cluster, queue, visited := cluster0, queue0, visited0;
    if 0 <= q.0 < n && 0 <= q.1 < n && board[q.0][q.1] == Hit && q !in visited {
      SearchStep(board, n, before, start, cluster, visited, h, q);
      visited := visited + {q};
      queue := queue + [q];
      cluster := cluster + [q];
    }
  }

  /** Taking one more cell off the queue extends what has been expanded by that cell. */
  lemma ExpandedMore(board: Board, n: int, c0: seq<Coord>, h: nat, v0: set<Coord>, cluster: seq<Coord>, visited: set<Coord>)
    requires IsBoard(board, n) && h < |c0| <= |cluster| && cluster[..|c0|] == c0 && v0 <= visited
    requires Expanded(board, n, c0, h, v0)
    requires forall d :: 0 <= d < 4 && Lit(board, n, Neighbour(c0[h], d)) ==> Neighbour(c0[h], d) in visited
    ensures Expanded(board, n, cluster, h + 1, visited)
  {
    forall k | 0 <= k <= h ensures cluster[k] == c0[k] {
      assert cluster[..|c0|][k] == cluster[k];
    }
  }

  /** Visiting a new grid cell leaves fewer grid cells unvisited. */
  lemma FewerUnvisited(n: int, v0: set<Coord>, v1: set<Coord>, q: Coord)
    requires v0 <= v1 && q in v1 && q !in v0 && q in Grid(n)
    ensures Grid(n) - v1 < Grid(n) - v0
  {
    assert q in Grid(n) - v0 && q !in Grid(n) - v1;
  }

  /**
    One turn of the search loop: the cell at the head of the queue is taken
    off and its neighbours visited. Either new cells were visited or the
    queue got shorter.
  */
  method ExpandNext(board: Board, n: nat, ghost before: set<Coord>, ghost start: Coord,
                    cluster0: seq<Coord>, queue0: seq<Coord>, visited0: set<Coord>)
    returns (cluster: seq<Coord>, queue: seq<Coord>, visited: set<Coord>)
    requires IsBoard(board, n) && Searching(board, n, before, start, cluster0, visited0)
    requires queue0 != [] && |queue0| <= |cluster0| && queue0 == cluster0[|cluster0| - |queue0|..]
    requires Expanded(board, n, cluster0, |cluster0| - |queue0|, visited0)
    ensures Searching(board, n, before, start, cluster, visited)
    ensures |queue| <= |cluster| && queue == cluster[|cluster| - |queue|..]
    ensures Expanded(board, n, cluster, |cluster| - |queue|, visited)
    ensures Grid(n) - visited < Grid(n) - visited0 || (visited == visited0 && |queue| < |queue0|)
  {
    ghost var h := |cluster0| - |queue0|;
    var p := queue0[0];
    cluster, queue, visited := VisitNeighbours(board, n, before, start, h, p, cluster0, queue0[1..], visited0);
    ExpandedMore(board, n, cluster0, h, visited0, cluster, visited);
    assert queue == cluster[h + 1..] by {
      assert queue0[1..] == cluster0[h + 1..];
      assert cluster == cluster0 + cluster[|cluster0|..];
    }
    if |cluster| > |cluster0| {
      FewerUnvisited(n, visited0, visited, cluster[|cluster0|]);
    }
  }

  /**
    The breadth-first search of one cluster from a HIT cell not yet
    visited: the queue holds the cluster's cells not yet expanded, and each
    expansion visits the four neighbours. The cluster it returns is the
    cell's whole 4-connected group of HIT cells.
  */
  method GrowCluster(board: Board, n: nat, start: Coord, before: set<Coord>) returns (cluster: seq<Coord>, visited: set<Coord>)
    requires IsBoard(board, n) && Lit(board, n, start) && start !in before && ClosedSet(board, n, before)
    ensures Component(board, n, cluster) && cluster[0] == start
    ensures forall k :: 0 <= k < |cluster| ==> cluster[k] !in before
    ensures visited == before + Elems(cluster)
  {
    cluster := [start];
    var queue := [start];
    visited := before + {start};
    assert Elems(cluster) == {start};
    while queue != []
      invariant Searching(board, n, before, start, cluster, visited)
      invariant |queue| <= |cluster| && queue == cluster[|cluster| - |queue|..]
      invariant Expanded(board, n, cluster, |cluster| - |queue|, visited)
      decreases Grid(n) - visited, |queue|
    {
      cluster, queue, visited := ExpandNext(board, n, before, start, cluster, queue, visited);
    }
    ClosedAfterSearch(board, n, cluster, before);
  }

  /** Row-major order on cells: an earlier row, or the same row and an earlier column. */
  predicate RowMajorBefore(p: Coord, q: Coord) {
    p.0 < q.0 || (p.0 == q.0 && p.1 < q.1)
  }

  /** A cluster that starts at its row-major first cell. */
  ghost predicate StartsFirst(cluster: seq<Coord>) {
    cluster != [] && forall i :: 0 < i < |cluster| ==> RowMajorBefore(cluster[0], cluster[i])
  }

  /**
    The order a row-by-row scan finds clusters in: each cluster starts at
    its row-major first cell, and after the start of the one before it.
  */
  ghost predicate ScanOrder(clusters: seq<seq<Coord>>)
    decreases |clusters|
  {
    clusters == [] ||
    var init := clusters[..|clusters| - 1];
    var last := clusters[|clusters| - 1];
    ScanOrder(init) && StartsFirst(last) &&
    (init != [] ==> init[|init| - 1] != [] && RowMajorBefore(init[|init| - 1][0], last[0]))
  }

  /** In scan order every cluster starts at its first cell and the starts increase row-major. */
  lemma {:induction false} ScanOrderSorted(clusters: seq<seq<Coord>>)
    requires ScanOrder(clusters)
    ensures forall k :: 0 <= k < |clusters| ==> StartsFirst(clusters[k])
    ensures forall i, j :: 0 <= i < j < |clusters| ==>
              clusters[i] != [] && clusters[j] != [] && RowMajorBefore(clusters[i][0], clusters[j][0])
  {
    if clusters != [] {
      var init := clusters[..|clusters| - 1];
      ScanOrderSorted(init);
      assert forall k :: 0 <= k < |init| ==> clusters[k] == init[k];
    }
  }

  /**
    The standard view's pass over the computer's board: every HIT cell not
    yet visited, row by row, starts a cluster search, and each cluster
    whose decision allows it gets its sprite. The clusters found are the
    4-connected groups of HIT cells: each HIT cell lies in exactly one of
    them, and each is connected and takes in every HIT cell next to it.
    They come in the scan's order: each starts at its row-major first cell,
    after the start of the one before it, and the sprites follow them.
  */
  method SunkSpritesStandard(board: Board, n: nat) returns (shown: seq<Sprite>, ghost clusters: seq<seq<Coord>>)
    requires IsBoard(board, n)
    ensures Components(board, n, clusters)
    ensures forall p :: p in Cells(clusters) <==> Lit(board, n, p)
    ensures NoDup(Flatten(clusters))
    ensures ScanOrder(clusters)
    ensures shown == SpritesOf(board, n, clusters)
  {
    shown := [];
    clusters := [];
    var visited: set<Coord> := {};
    for r := 0 to n
      invariant ScanInv(board, n, (r, 0), shown, clusters, visited)
    {
      for c := 0 to n
        invariant ScanInv(board, n, (r, c), shown, clusters, visited)
      {
        shown, clusters, visited := ScanCell(board, n, r, c, shown, clusters, visited);
      }
      NextRow(board, n, r, shown, clusters, visited);
    }
  }

  /**
    The pass's state at scan position q: the visited cells are the
    clusters' cells, which are HIT components without repeats found in
    scan order; every HIT cell before q is visited; the sprites are the
    clusters' sprites.
  */
  ghost predicate ScanInv(board: Board, n: nat, q: Coord, shown: seq<Sprite>, clusters: seq<seq<Coord>>, visited: set<Coord>)
    requires IsBoard(board, n)
  {
    visited == Cells(clusters) && Components(board, n, clusters) && NoDup(Flatten(clusters)) &&
    (forall p :: p in visited ==> Lit(board, n, p)) &&
    (forall p: Coord :: RowMajorBefore(p, q) && Lit(board, n, p) ==> p in visited) &&
    shown == SpritesOf(board, n, clusters) &&
    Scanned(clusters, q)
  }

  /** The end of a row is the start of the next. */
  lemma NextRow(board: Board, n: nat, r: int, shown: seq<Sprite>, clusters: seq<seq<Coord>>, visited: set<Coord>)
    requires IsBoard(board, n) && ScanInv(board, n, (r, n), shown, clusters, visited)
    ensures ScanInv(board, n, (r + 1, 0), shown, clusters, visited)
  {
    ScannedLater(clusters, (r, n), (r + 1, 0));
  }

  /** One cell of the pass: an unvisited HIT cell starts a cluster search and maybe a sprite. */
  method ScanCell(board: Board, n: nat, r: int, c: int, shown: seq<Sprite>, ghost clusters: seq<seq<Coord>>, visited: set<Coord>)
    returns (shown': seq<Sprite>, ghost clusters': seq<seq<Coord>>, visited': set<Coord>)
    requires IsBoard(board, n) && 0 <= r < n && 0 <= c < n
    requires ScanInv(board, n, (r, c), shown, clusters, visited)
    ensures ScanInv(board, n, (r, c + 1), shown', clusters', visited')
  {
    shown', clusters', visited' := shown, clusters, visited;
    if board[r][c] == Hit && (r, c) !in visited {
      ClosedUnion(board, n, clusters);
      var cluster, grown := GrowCluster(board, n, (r, c), visited);
      ScanAdd(board, n, r, c, shown, clusters, visited, cluster, grown);
      var decision := ClusterSprite(board, n, cluster);
      if decision.Some? {
        shown' := shown + [decision.value];
      }
      clusters' := clusters + [cluster];
      visited' := grown;
    } else {
      ScannedLater(clusters, (r, c), (r, c + 1));
    }
  }

  /** The clusters found so far are in scan order and the last one starts before the scan position `q`. */
  ghost predicate Scanned(clusters: seq<seq<Coord>>, q: Coord) {
    ScanOrder(clusters) &&
    (clusters != [] ==> clusters[|clusters| - 1] != [] && RowMajorBefore(clusters[|clusters| - 1][0], q))
  }

  /** Starts before a scan position are before every later position. */
  lemma ScannedLater(clusters: seq<seq<Coord>>, q: Coord, q': Coord)
    requires Scanned(clusters, q) && (q == q' || RowMajorBefore(q, q'))
    ensures Scanned(clusters, q')
  {
  }

  /** A new cluster grown from the scan position moves the pass's state one cell on. */
  lemma ScanAdd(board: Board, n: nat, r: int, c: int, shown: seq<Sprite>, clusters: seq<seq<Coord>>,
                visited: set<Coord>, cluster: seq<Coord>, grown: set<Coord>)
    requires IsBoard(board, n) && ScanInv(board, n, (r, c), shown, clusters, visited)
    requires Component(board, n, cluster) && cluster[0] == (r, c)
    requires forall k :: 0 <= k < |cluster| ==> cluster[k] !in visited
    requires grown == visited + Elems(cluster)
    ensures var d := ClusterSprite(board, n, cluster);
            ScanInv(board, n, (r, c + 1), shown + (if d.Some? then [d.value] else []), clusters + [cluster], grown)
  {
    ScanStep(board, n, clusters, cluster, visited, r, c);
    AddCluster(board, n, clusters, cluster);
    ScanCover(board, n, r, c, visited, cluster, grown);
  }

  /** The cells before the next scan position are covered once the current one's cluster is visited. */
  lemma ScanCover(board: Board, n: nat, r: int, c: int, visited: set<Coord>, cluster: seq<Coord>, grown: set<Coord>)
    requires IsBoard(board, n) && Component(board, n, cluster) && cluster[0] == (r, c)
    requires forall p :: p in visited ==> Lit(board, n, p)
    requires forall p: Coord :: RowMajorBefore(p, (r, c)) && Lit(board, n, p) ==> p in visited
    requires grown == visited + Elems(cluster)
    ensures forall p :: p in grown ==> Lit(board, n, p)
    ensures forall p: Coord :: RowMajorBefore(p, (r, c + 1)) && Lit(board, n, p) ==> p in grown
  {
    assert cluster[0] in Elems(cluster);
    forall p | p in grown
      ensures Lit(board, n, p)
    {
      if p !in visited {
        var k :| 0 <= k < |cluster| && cluster[k] == p;
      }
    }
  }

  /**
    A cluster grown from the scan position (r, c) out of cells not visited
    yet starts at its row-major first cell and after every earlier start,
    so the scan order is kept and every start lies before (r, c + 1).
  */
  lemma ScanStep(board: Board, n: nat, clusters: seq<seq<Coord>>, cluster: seq<Coord>, visited: set<Coord>, r: int, c: int)
    requires IsBoard(board, n) && Component(board, n, cluster) && cluster[0] == (r, c)
    requires Scanned(clusters, (r, c))
    requires forall k :: 0 <= k < |cluster| ==> cluster[k] !in visited
    requires forall p: Coord :: (0 <= p.0 < r || (p.0 == r && 0 <= p.1 < c)) && Lit(board, n, p) ==> p in visited
    ensures Scanned(clusters + [cluster], (r, c + 1))
  {
    assert (clusters + [cluster])[..|clusters|] == clusters;
    forall i | 0 < i < |cluster|
      ensures RowMajorBefore((r, c), cluster[i])
    {
      assert cluster[i] != cluster[0] && Lit(board, n, cluster[i]) && cluster[i] !in visited;
    }
  }

  /** A new cluster outside the old ones keeps the clusters' cells, their order and their sprites in step. */
  lemma AddCluster(board: Board, n: nat, clusters: seq<seq<Coord>>, cluster: seq<Coord>)
    requires IsBoard(board, n) && Component(board, n, cluster) && Components(board, n, clusters)
    requires NoDup(Flatten(clusters)) && forall k :: 0 <= k < |cluster| ==> cluster[k] !in Cells(clusters)
    ensures Components(board, n, clusters + [cluster])
    ensures Cells(clusters + [cluster]) == Cells(clusters) + Elems(cluster)
    ensures NoDup(Flatten(clusters + [cluster]))
    ensures var r := ClusterSprite(board, n, cluster);
            SpritesOf(board, n, clusters + [cluster]) == SpritesOf(board, n, clusters) + (if r.Some? then [r.value] else [])
  {
    var cs := clusters + [cluster];
    CellsSnoc(clusters, cluster);
    FlattenCells(clusters);
    assert cs[..|clusters|] == clusters;
    NoDupJoin(Flatten(clusters), cluster);
  }
}
