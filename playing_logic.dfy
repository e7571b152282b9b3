/**
  The playing screen's logic (screens/playing_logic.py): the player's
  clicks, the computer opponent's three strategies and the networked
  shot/result exchange.

  The opponent's shots all go through the same steps: count the shot and
  stamp its time, resolve it on the player's board, and declare the AI the
  winner when it sank the last ship. The model states those steps once, as
  the function `Fire` on a value `AiView` holding the state fields they
  touch, and every method that shoots is proved to change that view
  exactly as `Fire` says. What the source promises about the engine (no
  cell fired at twice, the ship counter equal to the SHIP cells, a
  duplicate-free neighbour queue) is then proved about `Fire` and the
  other specification functions.
*/
module PlayingModel {
  import opened Wrappers
  import opened BoardHelpers
  import opened CoreConfig
  import opened NetworkChannel
  import opened CoreGameState
  import opened Events

  /** The Hard strategy's two modes, the source's 'search' and 'destroy'. */
  datatype AiMode = Search | Destroy

  /** Neighbour order: up, down, left, right. */
  const ProbeOrder: seq<Coord> := [(-1, 0), (1, 0), (0, -1), (0, 1)]

  function Step(p: Coord, d: Coord): Coord {
    (p.0 + d.0, p.1 + d.1)
  }

  predicate EmptyAt(b: Board, c: Coord) {
    OnBoard(b, c) && Get(b, c) == Empty
  }

  /** `_valid_target`: on the grid and not fired at yet. */
  predicate ValidTarget(b: Board, n: int, c: Coord) {
    InBounds(n, c) && OnBoard(b, c) && Untried(Get(b, c))
  }

  /** A neighbour `_enqueue_adjacent` appends: on the grid, Empty, and not queued already. */
  predicate Eligible(q: seq<Coord>, b: Board, n: int, c: Coord) {
    InBounds(n, c) && EmptyAt(b, c) && c !in q
  }

  /** The queue after `_enqueue_adjacent`'s loop has visited the directions `dirs`, in order. */
  function EnqueueDirs(q: seq<Coord>, b: Board, n: int, p: Coord, dirs: seq<Coord>): seq<Coord>
  {
    if dirs == [] then q
    else
      var q' := EnqueueDirs(q, b, n, p, dirs[..|dirs| - 1]);
      var c := Step(p, dirs[|dirs| - 1]);
      if Eligible(q', b, n, c) then q' + [c] else q'
  }

  /** `_enqueue_adjacent(r, c)` as a function of the queue and the board. */
  function Enqueued(q: seq<Coord>, b: Board, n: int, p: Coord): seq<Coord> {
    EnqueueDirs(q, b, n, p, ProbeOrder)
  }

  /**
    The reference definition: the neighbours in direction order that are
    eligible with respect to the queue as it was before the call.
  */
  function NewNeighbours(q: seq<Coord>, b: Board, n: int, p: Coord, dirs: seq<Coord>): seq<Coord>
  {
    if dirs == [] then []
    else
      var c := Step(p, dirs[|dirs| - 1]);
      NewNeighbours(q, b, n, p, dirs[..|dirs| - 1]) + (if Eligible(q, b, n, c) then [c] else [])
  }

  /** The entries of NewNeighbours are exactly the eligible neighbours in the given directions. */
  lemma {:induction false} NewNeighboursMembers(q: seq<Coord>, b: Board, n: int, p: Coord, dirs: seq<Coord>, c: Coord)
    ensures c in NewNeighbours(q, b, n, p, dirs) <==>
            Eligible(q, b, n, c) && exists k :: 0 <= k < |dirs| && c == Step(p, dirs[k])
  {
    if dirs != [] {
      var init := dirs[..|dirs| - 1];
      NewNeighboursMembers(q, b, n, p, init, c);
      if c in NewNeighbours(q, b, n, p, init) {
        var k :| 0 <= k < |init| && c == Step(p, init[k]);
        assert c == Step(p, dirs[k]);
      }
      if Eligible(q, b, n, c) && exists k :: 0 <= k < |dirs| && c == Step(p, dirs[k]) {
        var k :| 0 <= k < |dirs| && c == Step(p, dirs[k]);
        if k < |dirs| - 1 {
          assert c == Step(p, init[k]);
        }
      }
    }
  }

  /** With distinct directions, the last direction's neighbour is not among the earlier ones' entries. */
  lemma NotYetAdded(q: seq<Coord>, b: Board, n: int, p: Coord, dirs: seq<Coord>)
    requires NoDup(dirs) && dirs != []
    ensures Step(p, dirs[|dirs| - 1]) !in NewNeighbours(q, b, n, p, dirs[..|dirs| - 1])
  {
    var init := dirs[..|dirs| - 1];
    var c := Step(p, dirs[|dirs| - 1]);
    NewNeighboursMembers(q, b, n, p, init, c);
    forall k | 0 <= k < |init|
      ensures c != Step(p, init[k])
    {
      assert init[k] == dirs[k];
    }
  }

  /** Distinct directions give distinct new entries. */
  lemma {:induction false} NewNeighboursNoDup(q: seq<Coord>, b: Board, n: int, p: Coord, dirs: seq<Coord>)
    requires NoDup(dirs)
    ensures NoDup(NewNeighbours(q, b, n, p, dirs))
  {
    if dirs != [] {
      var init := dirs[..|dirs| - 1];
      NewNeighboursNoDup(q, b, n, p, init);
      NotYetAdded(q, b, n, p, dirs);
    }
  }

  /** With distinct directions, the loop only ever appends, and what it appends is NewNeighbours. */
  lemma {:induction false} EnqueueDirsSplit(q: seq<Coord>, b: Board, n: int, p: Coord, dirs: seq<Coord>)
    requires NoDup(dirs)
    ensures EnqueueDirs(q, b, n, p, dirs) == q + NewNeighbours(q, b, n, p, dirs)
  {
    if dirs != [] {
      var init := dirs[..|dirs| - 1];
      EnqueueDirsSplit(q, b, n, p, init);
      NotYetAdded(q, b, n, p, dirs);
    }
  }

  /** A queue of in-grid cells without duplicates. */
  predicate TargetsOk(q: seq<Coord>, n: int) {
    NoDup(q) && forall k :: 0 <= k < |q| ==> InBounds(n, q[k])
  }

  /**
    `_enqueue_adjacent` keeps the old queue as a prefix and appends, in the
    order up, down, left, right, exactly the in-grid Empty neighbours not
    queued before; SHIP neighbours are never queued. A duplicate-free
    in-grid queue stays so.
  */
  lemma EnqueuedSpec(q: seq<Coord>, b: Board, n: int, p: Coord)
    ensures Enqueued(q, b, n, p) == q + NewNeighbours(q, b, n, p, ProbeOrder)
    ensures forall c :: c in NewNeighbours(q, b, n, p, ProbeOrder) <==>
              Eligible(q, b, n, c) && exists k :: 0 <= k < 4 && c == Step(p, ProbeOrder[k])
    ensures TargetsOk(q, n) ==> TargetsOk(Enqueued(q, b, n, p), n)
  {
    assert NoDup(ProbeOrder);
    EnqueueDirsSplit(q, b, n, p, ProbeOrder);
    NewNeighboursNoDup(q, b, n, p, ProbeOrder);
    forall c
      ensures c in NewNeighbours(q, b, n, p, ProbeOrder) <==>
              Eligible(q, b, n, c) && exists k :: 0 <= k < 4 && c == Step(p, ProbeOrder[k])
    {
      NewNeighboursMembers(q, b, n, p, ProbeOrder, c);
    }
    var e := Enqueued(q, b, n, p);
    var added := NewNeighbours(q, b, n, p, ProbeOrder);
    if TargetsOk(q, n) {
      forall i, j | 0 <= i < j < |e|
        ensures e[i] != e[j]
      {
        if j >= |q| {
          assert e[j] == added[j - |q|] && e[j] in added;
          if i < |q| {
            assert e[i] in q;
          } else {
            assert e[i] == added[i - |q|];
          }
        }
      }
      forall k | 0 <= k < |e|
        ensures InBounds(n, e[k])
      {
        if k >= |q| {
          assert e[k] == added[k - |q|] && e[k] in added;
        }
      }
    }
  }

  // ----- one shot at the player's board -----

  /** The state fields a shot at the player's board reads or writes. */
  datatype AiView = AiView(board: Board, ships: int, lastHit: Option<Coord>, targets: seq<Coord>,
                           shots: int, hits: int, times: seq<int>, winner: Option<Winner>, scene: Scene)

  /** `_apply_shot_result`: mark the cell; on a hit also count it, remember it and maybe seed neighbours. */
  function ApplyShot(v: AiView, n: int, p: Coord, hit: bool, seedNext: bool): AiView
    requires OnBoard(v.board, p)
  {
    if hit then
      var b := Set(v.board, p, Hit);
      v.(board := b, ships := v.ships - 1, lastHit := Some(p),
         targets := if seedNext then Enqueued(v.targets, b, n, p) else v.targets)
    else
      v.(board := Set(v.board, p, Miss))
  }

  /** The win check after a shot: a hit that leaves no ship ends the match for the AI. */
  function WinCheck(v: AiView, hit: bool): AiView {
    if hit && v.ships == 0 then v.(winner := Some(AiWon), scene := Stats) else v
  }

  /**
    One shot at `p`: counted and time-stamped (its hit counted only when
    `countHit`), resolved with or without seeding the neighbour queue, then
    the win check.
  */
  function Fire(v: AiView, n: int, p: Coord, seedNext: bool, countHit: bool, now: int): AiView
    requires OnBoard(v.board, p)
  {
    var hit := Get(v.board, p) == Ship;
    var v1 := v.(shots := v.shots + 1, times := v.times + [now], hits := v.hits + Indicator(countHit && hit));
    WinCheck(ApplyShot(v1, n, p, hit, seedNext), hit)
  }

  /** The engine's invariant: an n-by-n board, the ship counter in step with it, a sound queue. */
  predicate AiInv(v: AiView, n: int) {
    IsBoard(v.board, n) && v.ships == CountShips(v.board) && TargetsOk(v.targets, n)
  }

  /**
    A shot keeps the invariant and resolves exactly its own cell; at an
    untried cell it uses up one untried cell. The AI is declared the winner
    exactly when the shot hit the last SHIP cell; otherwise the winner and
    the scene stay as they were.
  */
  lemma FireSpec(v: AiView, n: int, p: Coord, seedNext: bool, countHit: bool, now: int)
    requires AiInv(v, n) && InBounds(n, p)
    ensures OnBoard(v.board, p)
    ensures AiInv(Fire(v, n, p, seedNext, countHit, now), n)
    ensures Fire(v, n, p, seedNext, countHit, now).board == Resolve(v.board, p)
    ensures Untried(Get(v.board, p)) ==>
              CountUntried(Fire(v, n, p, seedNext, countHit, now).board) == CountUntried(v.board) - 1
    ensures var r := Fire(v, n, p, seedNext, countHit, now);
            if Get(v.board, p) == Ship && CountShips(r.board) == 0
            then r.winner == Some(AiWon) && r.scene == Stats
            else r.winner == v.winner && r.scene == v.scene
  {
    var hit := Get(v.board, p) == Ship;
    var v1 := v.(shots := v.shots + 1, times := v.times + [now], hits := v.hits + Indicator(countHit && hit));
    ApplyShotSpec(v1, n, p, seedNext);
    if Untried(Get(v.board, p)) {
      ResolveCounts(v.board, p);
    }
  }

  /** Resolving a shot by what the cell holds keeps the invariant and resolves exactly that cell. */
  lemma ApplyShotSpec(v: AiView, n: int, p: Coord, seedNext: bool)
    requires AiInv(v, n) && InBounds(n, p)
    ensures OnBoard(v.board, p)
    ensures AiInv(ApplyShot(v, n, p, Get(v.board, p) == Ship, seedNext), n)
    ensures ApplyShot(v, n, p, Get(v.board, p) == Ship, seedNext).board == Resolve(v.board, p)
  {
    var hit := Get(v.board, p) == Ship;
    CountCellsUpdate(v.board, p, ShotResult(Get(v.board, p)), Ship);
    if hit && seedNext {
      EnqueuedSpec(v.targets, Resolve(v.board, p), n, p);
    }
  }

  // ----- a sequence of shots -----

  /** Every shot of `shots`, in order, lands on a cell untried just before it. */
  predicate FreshShots(b: Board, shots: seq<Coord>)
    decreases |shots|, 0
  {
    shots == [] ||
    (FreshShots(b, shots[..|shots| - 1]) &&
     var before := ResolveAll(b, shots[..|shots| - 1]);
     OnBoard(before, shots[|shots| - 1]) && Untried(Get(before, shots[|shots| - 1])))
  }

  /** The board after the shots, in order. */
  function ResolveAll(b: Board, shots: seq<Coord>): (r: Board)
    requires FreshShots(b, shots)
    ensures SameShape(b, r)
    decreases |shots|, 1
  {
    if shots == [] then b
    else Resolve(ResolveAll(b, shots[..|shots| - 1]), shots[|shots| - 1])
  }

  /** One more fresh shot extends a fresh sequence. */
  lemma FreshSnoc(b: Board, shots: seq<Coord>, p: Coord)
    requires FreshShots(b, shots) && ValidTarget(ResolveAll(b, shots), |b|, p)
    ensures FreshShots(b, shots + [p])
    ensures ResolveAll(b, shots + [p]) == Resolve(ResolveAll(b, shots), p)
  {
    assert (shots + [p])[..|shots|] == shots;
  }

  /** Two fresh sequences, the second from where the first left the board, make one. */
  lemma {:induction false} FreshAppend(b: Board, s1: seq<Coord>, s2: seq<Coord>)
    requires FreshShots(b, s1) && FreshShots(ResolveAll(b, s1), s2)
    ensures FreshShots(b, s1 + s2)
    ensures ResolveAll(b, s1 + s2) == ResolveAll(ResolveAll(b, s1), s2)
  {
    if s2 == [] {
      assert s1 + s2 == s1;
    } else {
      var init := s2[..|s2| - 1];
      var p := s2[|s2| - 1];
      FreshAppend(b, s1, init);
      assert (s1 + s2)[..|s1 + s2| - 1] == s1 + init;
      assert (s1 + s2)[|s1 + s2| - 1] == p;
    }
  }

  /**
    The reversal from the origin: the shot beyond the origin in the
    reversed direction when that cell is valid, as the view after it and
    the cells fired at.
  */
  function ReverseFrom(v: AiView, n: int, origin: Coord, d: Coord, now: int): (AiView, seq<Coord>) {
    var rt := Step(origin, Reverse(d));
    if ValidTarget(v.board, n, rt) then (Fire(v, n, rt, false, true, now), [rt]) else (v, [])
  }

  /**
    A missed follow shot at `t`, the return to the origin and the reversed
    shot when its cell is valid: the view left before the closing random
    shot, and the cells fired at.
  */
  function AfterReverse(v: AiView, n: int, t: Coord, origin: Coord, d: Coord, now: int): (AiView, seq<Coord>)
    requires OnBoard(v.board, t)
  {
    var r := ReverseFrom(Fire(v, n, t, false, true, now).(lastHit := Some(origin)), n, origin, d, now);
    (r.0, [t] + r.1)
  }

  /** After a fresh sequence every fired cell is tried, and a cell that was tried stays tried. */
  lemma {:induction false} ShotsTried(b: Board, shots: seq<Coord>, c: Coord)
    requires FreshShots(b, shots) && OnBoard(b, c)
    ensures (c in shots || !Untried(Get(b, c))) ==> !Untried(Get(ResolveAll(b, shots), c))
  {
    if shots != [] {
      var init := shots[..|shots| - 1];
      var p := shots[|shots| - 1];
      ShotsTried(b, init, c);
      assert c in shots ==> c in init || c == p;
    }
  }

  /**
    No double fire: the cells of a fresh sequence are distinct and were
    all untried to begin with.
  */
  lemma {:induction false} FreshShotsSpec(b: Board, shots: seq<Coord>)
    requires FreshShots(b, shots)
    ensures NoDup(shots)
    ensures forall k :: 0 <= k < |shots| ==> OnBoard(b, shots[k]) && Untried(Get(b, shots[k]))
  {
    if shots != [] {
      var init := shots[..|shots| - 1];
      var p := shots[|shots| - 1];
      FreshShotsSpec(b, init);
      assert forall k :: 0 <= k < |init| ==> shots[k] == init[k];
      assert OnBoard(b, p);
      ShotsTried(b, init, p);
      forall k | 0 <= k < |init|
        ensures init[k] != p
      {
        ShotsTried(b, init, init[k]);
      }
    }
  }

  /** A fresh sequence uses up one untried cell per shot. */
  lemma {:induction false} FreshShotsCount(b: Board, shots: seq<Coord>)
    requires FreshShots(b, shots)
    ensures CountUntried(ResolveAll(b, shots)) == CountUntried(b) - |shots|
  {
    if shots != [] {
      var init := shots[..|shots| - 1];
      FreshShotsCount(b, init);
      ResolveCounts(ResolveAll(b, init), shots[|shots| - 1]);
    }
  }

  /** The opposite direction. */
  function Reverse(d: Coord): Coord {
    (-d.0, -d.1)
  }

  /**
    A shot at a valid target extends a fresh sequence of shots: the
    invariant holds after it, the board is the sequence's board resolved at
    one more cell, and one untried cell fewer is left.
  */
  lemma FireStep(v: AiView, n: int, p: Coord, seedNext: bool, countHit: bool, now: int, b0: Board, shots: seq<Coord>)
    requires AiInv(v, n) && ValidTarget(v.board, n, p)
    requires FreshShots(b0, shots) && v.board == ResolveAll(b0, shots)
    ensures AiInv(Fire(v, n, p, seedNext, countHit, now), n)
    ensures FreshShots(b0, shots + [p]) && Fire(v, n, p, seedNext, countHit, now).board == ResolveAll(b0, shots + [p])
    ensures CountUntried(Fire(v, n, p, seedNext, countHit, now).board) == CountUntried(v.board) - 1
  {
    FireSpec(v, n, p, seedNext, countHit, now);
    FreshSnoc(b0, shots, p);
  }

  /** An untried cell exists whenever the untried count is positive. */
  lemma UntriedWitness(b: Board, n: int)
    requires IsBoard(b, n) && CountUntried(b) >= 1
    ensures exists r, c :: 0 <= r < n && 0 <= c < n && Untried(b[r][c])
  {
    var p;
    if CountCells(b, Empty) > 0 {
      p := CountCellsWitness(b, Empty);
    } else {
      p := CountCellsWitness(b, Ship);
    }
    assert Untried(b[p.0][p.1]);
  }

  /** The position of the first queue entry not fired at yet; |q| when there is none. */
  function FirstUntried(q: seq<Coord>, b: Board): (k: nat)
    requires forall i :: 0 <= i < |q| ==> OnBoard(b, q[i])
    ensures k <= |q|
    ensures forall i :: 0 <= i < k ==> !Untried(Get(b, q[i]))
    ensures k < |q| ==> Untried(Get(b, q[k]))
  {
    if q == [] then 0
    else if Untried(Get(b, q[0])) then 0
    else 1 + FirstUntried(q[1..], b)
  }

  /** The first untried entry is the one after a run of tried entries. */
  lemma {:induction false} FirstUntriedAt(q: seq<Coord>, b: Board, k: nat)
    requires forall i :: 0 <= i < |q| ==> OnBoard(b, q[i])
    requires k <= |q| && forall i :: 0 <= i < k ==> !Untried(Get(b, q[i]))
    requires k < |q| ==> Untried(Get(b, q[k]))
    ensures FirstUntried(q, b) == k
  {
    if q != [] && k > 0 {
      assert !Untried(Get(b, q[0]));
      FirstUntriedAt(q[1..], b, k - 1);
    }
  }

  /** The position of the first direction whose probe target from `origin` is valid; |dirs| when none is. */
  function FirstValidProbe(dirs: seq<Coord>, origin: Coord, b: Board, n: int): (k: nat)
    ensures k <= |dirs|
    ensures forall i :: 0 <= i < k ==> !ValidTarget(b, n, Step(origin, dirs[i]))
    ensures k < |dirs| ==> ValidTarget(b, n, Step(origin, dirs[k]))
  {
    if dirs == [] then 0
    else if ValidTarget(b, n, Step(origin, dirs[0])) then 0
    else 1 + FirstValidProbe(dirs[1..], origin, b, n)
  }

  // ----- the player's shots -----

  /** The state fields the player's shots read and write. */
  datatype PlayerView = PlayerView(attacks: Board, computer: Board, ships: int, shots: int, hits: int,
                                   times: seq<int>, winner: Option<Winner>, scene: Scene,
                                   pending: bool, start: int)

  /** A single-player shot at `p`: a SHIP cell becomes Hit on both boards and is counted, anything else a Miss on the attack board. */
  function ResolvePlayer(v: PlayerView, p: Coord): PlayerView
    requires OnBoard(v.attacks, p) && OnBoard(v.computer, p)
  {
    if Get(v.computer, p) == Ship then
      v.(hits := v.hits + 1, attacks := Set(v.attacks, p, Hit), computer := Set(v.computer, p, Hit),
         ships := v.ships - 1)
    else
      v.(attacks := Set(v.attacks, p, Miss))
  }

  /** After a single-player shot: the player wins when no computer ship is left, otherwise the AI turn is scheduled. */
  function AfterPlayerShot(v: PlayerView, now: int): PlayerView {
    if v.ships == 0 then v.(winner := Some(PlayerWon), scene := Stats)
    else v.(pending := true, start := now)
  }

  /** The single-player branch of handle_event, once it has decided to shoot at `p`. */
  function PlayerShot(v: PlayerView, p: Coord, now: int): PlayerView
    requires OnBoard(v.attacks, p) && OnBoard(v.computer, p)
  {
    AfterPlayerShot(ResolvePlayer(v.(shots := v.shots + 1, times := v.times + [now]), p), now)
  }

  /** The single-player invariant: n-by-n boards and the computer's counter in step with its SHIP cells. */
  predicate PlayerInv(v: PlayerView, n: int) {
    IsBoard(v.attacks, n) && IsBoard(v.computer, n) && v.ships == CountShips(v.computer)
  }

  /**
    A single-player shot keeps the invariant and changes only cell `p`: on
    the attack board it shows Hit exactly when the computer's cell held a
    ship, and the computer's cell becomes Hit only then. The player is
    declared the winner, without an AI turn being scheduled, exactly when
    no SHIP cell is left on the computer's board; otherwise the AI turn is
    scheduled at `now`.
  */
  lemma PlayerShotSpec(v: PlayerView, n: int, p: Coord, now: int)
    requires PlayerInv(v, n) && InBounds(n, p)
    ensures OnBoard(v.attacks, p) && OnBoard(v.computer, p)
    ensures PlayerInv(PlayerShot(v, p, now), n)
    ensures PlayerShot(v, p, now).attacks == Set(v.attacks, p, ShotResult(Get(v.computer, p)))
    ensures PlayerShot(v, p, now).computer == if Get(v.computer, p) == Ship then Set(v.computer, p, Hit) else v.computer
    ensures var r := PlayerShot(v, p, now);
            if CountShips(r.computer) == 0
            then r.winner == Some(PlayerWon) && r.scene == Stats && r.pending == v.pending
            else r.winner == v.winner && r.scene == v.scene && r.pending && r.start == now
  {
    CountCellsUpdate(v.computer, p, Hit, Ship);
  }

  /**
    A shot result from the peer for the pending shot `p`: the attack cell
    shows Hit or Miss; a hit is counted, takes one ship off the computer's
    counter and, at zero, makes the player the winner.
  */
  function NetworkResult(v: PlayerView, p: Coord, hit: bool): PlayerView
    requires OnBoard(v.attacks, p)
  {
    var v1 := v.(attacks := Set(v.attacks, p, if hit then Hit else Miss));
    if !hit then v1
    else
      var v2 := v1.(hits := v1.hits + 1, ships := v1.ships - 1);
      if v2.ships == 0 then v2.(winner := Some(PlayerWon), scene := Stats) else v2
  }

  /** The cell a left-button press lands on in the enemy grid, if any. */
  function ClickedCell(ev: Event, offsetX: int, offsetY: int, cs: int, n: int): (c: Option<Coord>)
    requires cs > 0
    ensures c.Some? ==> InBounds(n, c.value)
    ensures c.Some? <==> ev.MouseDown? && ev.button == 1 && GetGridPos(ev.x, ev.y, offsetX, offsetY, cs, n).Some?
  {
    if ev.MouseDown? && ev.button == 1 then GetGridPos(ev.x, ev.y, offsetX, offsetY, cs, n) else None
  }

  /** Every shot message the peer has queued names a cell of the grid. */
  predicate ShotsInBounds(inbox: seq<Message>, n: int) {
    forall k :: 0 <= k < |inbox| && inbox[k].ShotMsg? ==> InBounds(n, (inbox[k].row, inbox[k].col))
  }

  // ----- the networked turn -----

  /** What handle_network_turn reads and writes: the channel's queues, the shot in flight, the turn flags and both boards' views. */
  datatype NetView = NetView(ai: AiView, pl: PlayerView, inbox: seq<Message>, outbox: seq<Message>,
                             pending: Option<Coord>, awaiting: bool, myTurn: bool)

  /** The networked invariant: both views sound, the shot in flight on the grid, every queued peer shot on the grid. */
  predicate NetInv(v: NetView, n: int) {
    AiInv(v.ai, n) && IsBoard(v.pl.attacks, n) &&
    (v.pending.Some? ==> InBounds(n, v.pending.value)) && ShotsInBounds(v.inbox, n)
  }

  /** The shot in flight goes out once and the engine starts waiting for its result. */
  function SendShot(v: NetView): NetView
    requires v.pending.Some?
  {
    v.(outbox := v.outbox + [ShotMsg(v.pending.value.0, v.pending.value.1)], awaiting := true)
  }

  /** While waiting: the next message is consumed; only a result settles the shot in flight. */
  function TakeResult(v: NetView): NetView
    requires v.pending.Some? && OnBoard(v.pl.attacks, v.pending.value)
  {
    if v.inbox == [] then v
    else if !v.inbox[0].ResultMsg? then v.(inbox := v.inbox[1..])
    else
      var pl := NetworkResult(v.pl, v.pending.value, v.inbox[0].hit == Some(true));
      v.(inbox := v.inbox[1..], pl := pl, ai := v.ai.(winner := pl.winner, scene := pl.scene),
         awaiting := false, pending := None)
  }

  /** With nothing in flight: the next message is consumed; a peer shot is resolved on the player's board, answered, and returns the turn unless it sank the last ship. */
  function AnswerPeer(v: NetView, n: int, now: int): NetView
    requires IsBoard(v.ai.board, n) && ShotsInBounds(v.inbox, n)
  {
    if v.inbox == [] then v
    else if !v.inbox[0].ShotMsg? then v.(inbox := v.inbox[1..])
    else
      var p := (v.inbox[0].row, v.inbox[0].col);
      var hit := Get(v.ai.board, p) == Ship;
      var ai := Fire(v.ai, n, p, false, false, now);
      v.(inbox := v.inbox[1..], ai := ai, pl := v.pl.(winner := ai.winner, scene := ai.scene),
         outbox := v.outbox + [ResultMsg(Some(hit))],
         myTurn := if hit && ai.ships == 0 then v.myTurn else true)
  }

  /** AnswerPeer on a peer shot, component by component. */
  lemma AnswerPeerParts(v: NetView, n: int, now: int, r: NetView)
    requires IsBoard(v.ai.board, n) && ShotsInBounds(v.inbox, n) && v.inbox != [] && v.inbox[0].ShotMsg?
    requires var p := (v.inbox[0].row, v.inbox[0].col);
             r.ai == Fire(v.ai, n, p, false, false, now) && r.pl == v.pl.(winner := r.ai.winner, scene := r.ai.scene) &&
             r.inbox == v.inbox[1..] && r.outbox == v.outbox + [ResultMsg(Some(Get(v.ai.board, p) == Ship))] &&
             r.pending == v.pending && r.awaiting == v.awaiting &&
             r.myTurn == if Get(v.ai.board, p) == Ship && r.ai.ships == 0 then v.myTurn else true
    ensures r == AnswerPeer(v, n, now)
  {
  }

  /** One call of handle_network_turn on a connected game. */
  function NetTurn(v: NetView, n: int, now: int): NetView
    requires NetInv(v, n)
  {
    if v.pending.Some? then
      if !v.awaiting then SendShot(v) else TakeResult(v)
    else AnswerPeer(v, n, now)
  }

  /** A networked turn keeps the invariant and consumes at most the oldest queued message. */
  lemma NetTurnInv(v: NetView, n: int, now: int)
    requires NetInv(v, n)
    ensures NetInv(NetTurn(v, n, now), n)
    ensures NetTurn(v, n, now).inbox == v.inbox || (v.inbox != [] && NetTurn(v, n, now).inbox == v.inbox[1..])
  {
    if v.pending.None? && v.inbox != [] && v.inbox[0].ShotMsg? {
      FireSpec(v.ai, n, (v.inbox[0].row, v.inbox[0].col), false, false, now);
    }
  }

  /**
    The shot protocol: a shot in flight is sent exactly once, on the first
    turn after it is queued, and never again while its result is awaited;
    the shot is settled only by a result message, which marks the attack
    cell Hit or Miss as the peer reported (a missing "hit" key reads as a
    miss), and the player wins exactly when a reported hit takes the
    computer's counter to zero.
  */
  lemma NetShotProtocol(v: NetView, n: int, now: int)
    requires NetInv(v, n) && v.pending.Some?
    ensures var r := NetTurn(v, n, now);
            var p := v.pending.value;
            if !v.awaiting then
              r == v.(outbox := v.outbox + [ShotMsg(p.0, p.1)], awaiting := true)
            else
              r.outbox == v.outbox && r.myTurn == v.myTurn && r.ai.board == v.ai.board &&
              (r.pending.None? <==> v.inbox != [] && v.inbox[0].ResultMsg?) &&
              (r.pending.None? ==>
                 var hit := v.inbox[0].hit == Some(true);
                 !r.awaiting && r.pl.attacks == Set(v.pl.attacks, p, if hit then Hit else Miss) &&
                 r.pl.ships == v.pl.ships - Indicator(hit) &&
                 (r.pl.winner == Some(PlayerWon) <==> (hit && r.pl.ships == 0) || v.pl.winner == Some(PlayerWon))) &&
              (r.pending.Some? ==> r.pl == v.pl && r.awaiting)
  {
  }

  /**
    Answering the peer: with no shot in flight, a queued peer shot is fired
    at the player's board as an AI shot would be (counted, stamped, not
    counted as an AI hit, no neighbours queued), answered with whether it
    found a SHIP cell, and hands the turn to the player unless it sank the
    last ship; any other message is dropped unanswered.
  */
  lemma NetAnswerProtocol(v: NetView, n: int, now: int)
    requires NetInv(v, n) && v.pending.None?
    ensures var r := NetTurn(v, n, now);
            if v.inbox != [] && v.inbox[0].ShotMsg? then
              var p := (v.inbox[0].row, v.inbox[0].col);
              InBounds(n, p) && OnBoard(v.ai.board, p) &&
              r.ai == Fire(v.ai, n, p, false, false, now) && r.ai.board == Resolve(v.ai.board, p) &&
              r.outbox == v.outbox + [ResultMsg(Some(Get(v.ai.board, p) == Ship))] &&
              (r.myTurn <==> !(Get(v.ai.board, p) == Ship && CountShips(r.ai.board) == 0) || v.myTurn)
            else
              r.outbox == v.outbox && r.ai == v.ai && r.pl == v.pl && r.myTurn == v.myTurn
  {
    if v.inbox != [] && v.inbox[0].ShotMsg? {
      FireSpec(v.ai, n, (v.inbox[0].row, v.inbox[0].col), false, false, now);
    }
  }

  /**
    The Hard strategy's memory: search mode remembers nothing, destroy mode
    has an origin, and a locked direction has a last hit to follow.
  */
  predicate MemoryOk(mode: AiMode, origin: Option<Coord>, dirs: seq<Coord>, current: Option<Coord>,
                     lastHit: Option<Coord>) {
    (mode == Search ==> origin == None && dirs == [] && current == None) &&
    (mode == Destroy ==> origin.Some?) &&
    (current.Some? ==> lastHit.Some?)
  }

  /** The Hard strategy's memory as one value: mode, origin, directions left to probe, locked direction. */
  datatype Memory = Memory(mode: AiMode, origin: Option<Coord>, dirs: seq<Coord>, current: Option<Coord>)

  /**
    The untried cells the Hard follow step uses: one when the follow shot
    hits or its cell is not valid; after a miss, the follow cell, the
    reversal cell when that is valid, and the closing random shot.
  */
  function FollowNeeded(v: AiView, m: Memory, n: int): nat {
    if m.origin.None? || m.current.None? || v.lastHit.None? then 1
    else
      var t := Step(v.lastHit.value, m.current.value);
      if ValidTarget(v.board, n, t) && Get(v.board, t) != Ship then
        var rt := Step(m.origin.value, Reverse(m.current.value));
        if ValidTarget(Resolve(v.board, t), n, rt) then 3 else 2
      else 1
  }

  /**
    The untried cells one AI turn needs so that its random draw loops end:
    the follow step's count in Hard destroy mode with a locked direction,
    one for every other strategy.
  */
  function UntriedNeeded(difficulty: string, v: AiView, m: Memory, n: int): nat {
    if difficulty !in {"Easy", "Medium"} && m.mode == Destroy && m.current.Some? then FollowNeeded(v, m, n) else 1
  }

  /** Easy: one unseeded random shot at a valid target. */
  predicate EasyOutcome(v: AiView, n: int, now: int, p: Coord, w: AiView) {
    ValidTarget(v.board, n, p) && w == Fire(v, n, p, false, true, now)
  }

  /**
    `_ai_shot_from_targets`: the queue entries before the first untried one
    are dropped and one seeded shot goes to it; when none is untried the
    queue is emptied and one seeded random shot goes to a valid target.
  */
  predicate FromTargetsOutcome(v: AiView, n: int, now: int, p: Coord, w: AiView)
    requires AiInv(v, n)
  {
    var q := v.targets;
    assert forall i :: 0 <= i < |q| ==> OnBoard(v.board, q[i]);
    var k := FirstUntried(q, v.board);
    if k < |q|
    then p == q[k] && w == Fire(v.(targets := q[k + 1..]), n, p, true, true, now)
    else ValidTarget(v.board, n, p) && w == Fire(v.(targets := []), n, p, true, true, now)
  }

  /**
    Medium: a shot from the neighbour queue when it is non-empty, else one
    seeded random shot at a valid target.
  */
  predicate MediumOutcome(v: AiView, n: int, now: int, p: Coord, w: AiView)
    requires AiInv(v, n)
  {
    if v.targets != [] then FromTargetsOutcome(v, n, now, p, w)
    else ValidTarget(v.board, n, p) && w == Fire(v, n, p, true, true, now)
  }

  /** Hard in search mode: one seeded random shot; a hit enters destroy mode around it. */
  predicate SearchOutcome(v: AiView, m: Memory, n: int, now: int, fired: seq<Coord>, w: AiView, m': Memory) {
    |fired| == 1 && ValidTarget(v.board, n, fired[0]) &&
    w == Fire(v, n, fired[0], true, true, now) &&
    m' == if Get(v.board, fired[0]) == Ship then Memory(Destroy, Some(fired[0]), ProbeOrder, None) else m
  }

  /**
    Hard in destroy mode with no locked direction: the first direction
    with a valid target is probed unseeded (a hit locks it) and the
    directions before it are dropped; when none is valid, back to search
    with one seeded random shot.
  */
  predicate ProbeOutcome(v: AiView, m: Memory, n: int, now: int, fired: seq<Coord>, w: AiView, m': Memory) {
    m.origin.Some? &&
    var k := FirstValidProbe(m.dirs, m.origin.value, v.board, n);
    if k < |m.dirs| then
      var t := Step(m.origin.value, m.dirs[k]);
      fired == [t] && w == Fire(v, n, t, false, true, now) &&
      m' == Memory(Destroy, m.origin, m.dirs[k + 1..], if Get(v.board, t) == Ship then Some(m.dirs[k]) else None)
    else
      |fired| == 1 && ValidTarget(v.board, n, fired[0]) &&
      w == Fire(v, n, fired[0], true, true, now) && m' == Memory(Search, None, [], None)
  }

  /**
    Hard in destroy mode with a locked direction: a follow shot that hits
    keeps the memory; otherwise the reversal (after a miss) and one seeded
    random shot, back in search mode.
  */
  predicate FollowOutcome(v: AiView, m: Memory, n: int, now: int, fired: seq<Coord>, w: AiView, m': Memory) {
    m.origin.Some? && m.current.Some? && v.lastHit.Some? &&
    var t := Step(v.lastHit.value, m.current.value);
    if ValidTarget(v.board, n, t) && Get(v.board, t) == Ship then
      fired == [t] && w == Fire(v, n, t, false, true, now) && m' == m
    else
      var (mid, before) := if ValidTarget(v.board, n, t)
                           then AfterReverse(v, n, t, m.origin.value, m.current.value, now)
                           else (v, []);
      |fired| == |before| + 1 && fired[..|before|] == before &&
      ValidTarget(mid.board, n, fired[|before|]) && w == Fire(mid, n, fired[|before|], true, true, now) &&
      m' == Memory(Search, None, [], None)
  }

  /** `_ai_advanced_shot`: the outcome of the branch the mode and the locked direction select. */
  predicate HardOutcome(v: AiView, m: Memory, n: int, now: int, fired: seq<Coord>, w: AiView, m': Memory) {
    if m.mode == Search then SearchOutcome(v, m, n, now, fired, w, m')
    else if m.current == None then ProbeOutcome(v, m, n, now, fired, w, m')
    else FollowOutcome(v, m, n, now, fired, w, m')
  }

  /**
    One AI turn by difficulty; anything but "Easy" and "Medium" plays Hard.
    Easy and Medium fire one shot and leave the Hard memory alone.
  */
  predicate AiOutcome(difficulty: string, v: AiView, m: Memory, n: int, now: int, fired: seq<Coord>, w: AiView, m': Memory)
    requires AiInv(v, n)
  {
    if difficulty == "Easy" then |fired| == 1 && m' == m && EasyOutcome(v, n, now, fired[0], w)
    else if difficulty == "Medium" then |fired| == 1 && m' == m && MediumOutcome(v, n, now, fired[0], w)
    else HardOutcome(v, m, n, now, fired, w, m')
  }

  class PlayingLogic {
    const state: GameState
    var aiMode: AiMode
    var destroyOrigin: Option<Coord>
    var destroyDirections: seq<Coord>
    var currentDirection: Option<Coord>
    var myTurn: bool
    var awaitingResult: bool

    /** `__init__`: the screen is drawing only; the logic starts from reset. */
    constructor (state: GameState)
      modifies state`pendingShot
      ensures this.state == state
      ensures aiMode == Search && destroyOrigin == None && destroyDirections == [] && currentDirection == None
      ensures myTurn == (state.network != null && state.isHost)
      ensures !awaitingResult && state.pendingShot == None
    {
      this.state := state;
      new;
      Reset();
    }

    /**
      reset: the Hard strategy's memory cleared; in a networked match the
      host moves first, in single player the flag is off; no result awaited
      and no pending shot.
    */
    method Reset()
      modifies this`aiMode, this`destroyOrigin, this`destroyDirections, this`currentDirection
      modifies this`myTurn, this`awaitingResult, state`pendingShot
      ensures aiMode == Search && destroyOrigin == None && destroyDirections == [] && currentDirection == None
      ensures myTurn == (state.network != null && state.isHost)
      ensures !awaitingResult && state.pendingShot == None
    {
      ResetDestroyMode();
      myTurn := state.network != null && state.isHost;
      awaitingResult := false;
      state.pendingShot := None;
    }

    /** The state fields the opponent's shots read and write, as one value. */
    function View(): AiView
      reads state`playerBoard, state`playerShips, state`lastPlayerHit, state`aiTargets
      reads state`aiShots, state`aiHits, state`aiShotTimes, state`winner, state`scene
    {
      AiView(state.playerBoard, state.playerShips, state.lastPlayerHit, state.aiTargets,
             state.aiShots, state.aiHits, state.aiShotTimes, state.winner, state.scene)
    }

    /** The Hard strategy's memory fields as one value. */
    function Mem(): Memory
      reads this`aiMode, this`destroyOrigin, this`destroyDirections, this`currentDirection
    {
      Memory(aiMode, destroyOrigin, destroyDirections, currentDirection)
    }

    predicate Valid(n: int)
      reads this`aiMode, this`destroyOrigin, this`destroyDirections, this`currentDirection
      reads state`playerBoard, state`playerShips, state`lastPlayerHit, state`aiTargets
      reads state`aiShots, state`aiHits, state`aiShotTimes, state`winner, state`scene
    {
      AiInv(View(), n) &&
      MemoryOk(aiMode, destroyOrigin, destroyDirections, currentDirection, state.lastPlayerHit)
    }

    /** `_enqueue_adjacent`: the loop over the four directions, as specified by Enqueued. */
    method EnqueueAdjacent(n: int, p: Coord)
      requires IsBoard(state.playerBoard, n)
      modifies state`aiTargets
      ensures state.aiTargets == Enqueued(old(state.aiTargets), state.playerBoard, n, p)
    {
      for i := 0 to |ProbeOrder|
        invariant state.aiTargets == EnqueueDirs(old(state.aiTargets), state.playerBoard, n, p, ProbeOrder[..i])
      {
        var (dr, dc) := ProbeOrder[i];
        var nr, nc := p.0 + dr, p.1 + dc;
        assert ProbeOrder[..i + 1][..i] == ProbeOrder[..i] && Step(p, ProbeOrder[i]) == (nr, nc);
        if 0 <= nr < n && 0 <= nc < n && state.playerBoard[nr][nc] == Empty && (nr, nc) !in state.aiTargets {
          state.aiTargets := state.aiTargets + [(nr, nc)];
        }
      }
      assert ProbeOrder[..|ProbeOrder|] == ProbeOrder;
    }

    /** `_apply_shot_result` */
    method ApplyShotResult(n: int, p: Coord, hit: bool, seedNext: bool)
      requires IsBoard(state.playerBoard, n) && InBounds(n, p)
      modifies state`playerBoard, state`playerShips, state`lastPlayerHit, state`aiTargets
      ensures View() == ApplyShot(old(View()), n, p, hit, seedNext)
    {
      if hit {
        state.playerBoard := Set(state.playerBoard, p, Hit);
        state.playerShips := state.playerShips - 1;
        state.lastPlayerHit := Some(p);
        if seedNext {
          EnqueueAdjacent(n, p);
        }
      } else {
        state.playerBoard := Set(state.playerBoard, p, Miss);
      }
    }

    /** The win check that follows every shot at the player's board. */
    method CheckAiWin(hit: bool)
      modifies state`winner, state`scene
      ensures View() == WinCheck(old(View()), hit)
    {
      if hit && state.playerShips == 0 {
        state.winner := Some(AiWon);
        state.scene := Stats;
      }
    }

    /**
      The steps every shot at the player's board takes: count it and stamp
      its time, count a hit when `countHit`, resolve it, check for the win.
    */
    method TakeShot(n: int, p: Coord, seedNext: bool, countHit: bool, now: int) returns (hit: bool)
      requires IsBoard(state.playerBoard, n) && InBounds(n, p)
      modifies state`playerBoard, state`playerShips, state`lastPlayerHit, state`aiTargets
      modifies state`aiShots, state`aiHits, state`aiShotTimes, state`winner, state`scene
      ensures hit == (Get(old(state.playerBoard), p) == Ship)
      ensures View() == Fire(old(View()), n, p, seedNext, countHit, now)
    {
      hit := state.playerBoard[p.0][p.1] == Ship;
      state.aiShots := state.aiShots + 1;
      state.aiShotTimes := state.aiShotTimes + [now];
      if countHit && hit {
        state.aiHits := state.aiHits + 1;
      }
      ApplyShotResult(n, p, hit, seedNext);
      CheckAiWin(hit);
    }

    /**
      The random draw loops: `randint` is drawn until the cell is untried,
      so the loop ends exactly on some untried cell, any of which it may
      pick. The board is only read.
    */
    method PickUntried(n: int) returns (p: Coord)
      requires IsBoard(state.playerBoard, n) && CountUntried(state.playerBoard) >= 1
      ensures ValidTarget(state.playerBoard, n, p)
    {
      UntriedWitness(state.playerBoard, n);
      var r, c :| 0 <= r < n && 0 <= c < n && Untried(state.playerBoard[r][c]);
      p := (r, c);
    }

    /** `_ai_shot_random`: one shot at a random untried cell. */
    method AiShotRandom(n: int, seedNext: bool, now: int) returns (p: Coord)
      requires AiInv(View(), n) && CountUntried(state.playerBoard) >= 1
      modifies state`playerBoard, state`playerShips, state`lastPlayerHit, state`aiTargets
      modifies state`aiShots, state`aiHits, state`aiShotTimes, state`winner, state`scene
      ensures ValidTarget(old(state.playerBoard), n, p)
      ensures View() == Fire(old(View()), n, p, seedNext, true, now)
      ensures AiInv(View(), n) && FreshShots(old(state.playerBoard), [p])
      ensures state.playerBoard == ResolveAll(old(state.playerBoard), [p])
    {
      ghost var v := View();
      p := PickUntried(n);
      var hit := TakeShot(n, p, seedNext, true, now);
      FireStep(v, n, p, seedNext, true, now, v.board, []);
    }

    /**
      `_ai_shot_from_targets`: pops queue entries until one is untried and
      fires one seeded shot at it; the entries before it are dropped. When
      the queue runs out, one seeded random shot instead.
    */
    method AiShotFromTargets(n: int, now: int) returns (p: Coord)
      requires AiInv(View(), n) && CountUntried(state.playerBoard) >= 1
      modifies state`playerBoard, state`playerShips, state`lastPlayerHit, state`aiTargets
      modifies state`aiShots, state`aiHits, state`aiShotTimes, state`winner, state`scene
      ensures var q := old(state.aiTargets);
              var k := FirstUntried(q, old(state.playerBoard));
              if k < |q|
              then p == q[k] && View() == Fire(old(View()).(targets := q[k + 1..]), n, p, true, true, now)
              else ValidTarget(old(state.playerBoard), n, p) &&
                   View() == Fire(old(View()).(targets := []), n, p, true, true, now)
      ensures AiInv(View(), n) && FreshShots(old(state.playerBoard), [p])
      ensures state.playerBoard == ResolveAll(old(state.playerBoard), [p])
    {
      ghost var q := state.aiTargets;
      ghost var b := state.playerBoard;
      ghost var k := 0;
      assert forall i :: 0 <= i < |q| ==> OnBoard(b, q[i]);
      while state.aiTargets != []
        invariant 0 <= k <= |q| && state.aiTargets == q[k..]
        invariant View() == old(View()).(targets := q[k..])
        invariant forall i :: 0 <= i < k ==> !Untried(Get(b, q[i]))
        invariant AiInv(View(), n)
        decreases |state.aiTargets|
      {
        var c := state.aiTargets[0];
        state.aiTargets := state.aiTargets[1..];
        k := k + 1;
        if Untried(state.playerBoard[c.0][c.1]) {
          FirstUntriedAt(q, b, k - 1);
          p := c;
          ghost var v := View();
          assert v == old(View()).(targets := q[FirstUntried(q, b) + 1..]);
          ShootTarget(n, c, now);
          return;
        }
      }
      FirstUntriedAt(q, b, |q|);
      p := AiShotRandom(n, true, now);
    }

    /** One seeded shot at an untried cell taken from the queue. */
    method ShootTarget(n: int, c: Coord, now: int)
      requires AiInv(View(), n) && ValidTarget(state.playerBoard, n, c)
      modifies state`playerBoard, state`playerShips, state`lastPlayerHit, state`aiTargets
      modifies state`aiShots, state`aiHits, state`aiShotTimes, state`winner, state`scene
      ensures View() == Fire(old(View()), n, c, true, true, now)
      ensures AiInv(View(), n) && FreshShots(old(state.playerBoard), [c])
      ensures state.playerBoard == ResolveAll(old(state.playerBoard), [c])
    {
      ghost var v := View();
      var hit := TakeShot(n, c, true, true, now);
      FireStep(v, n, c, true, true, now, v.board, []);
    }

    /** destroy mode around a first hit, all four directions still to probe. */
    method EnterDestroyMode(origin: Coord)
      modifies this`aiMode, this`destroyOrigin, this`destroyDirections, this`currentDirection
      ensures aiMode == Destroy && destroyOrigin == Some(origin) && destroyDirections == ProbeOrder
      ensures currentDirection == None
    {
      aiMode := Destroy;
      destroyOrigin := Some(origin);
      destroyDirections := ProbeOrder;
      currentDirection := None;
    }

    /**
      `_ai_advanced_shot` in search mode: one seeded shot at a random
      untried cell; a hit switches to destroy mode around that cell. (The
      source switches modes before its win check; the two touch different
      fields.)
    */
    method SearchShot(n: int, now: int) returns (p: Coord)
      requires AiInv(View(), n) && CountUntried(state.playerBoard) >= 1
      modifies state`playerBoard, state`playerShips, state`lastPlayerHit, state`aiTargets
      modifies state`aiShots, state`aiHits, state`aiShotTimes, state`winner, state`scene
      modifies this`aiMode, this`destroyOrigin, this`destroyDirections, this`currentDirection
      ensures SearchOutcome(old(View()), old(Mem()), n, now, [p], View(), Mem())
      ensures AiInv(View(), n) && FreshShots(old(state.playerBoard), [p])
      ensures state.playerBoard == ResolveAll(old(state.playerBoard), [p])
    {
      ghost var v := View();
      p := PickUntried(n);
      var hit := TakeShot(n, p, true, true, now);
      if hit {
        EnterDestroyMode(p);
      }
      FireStep(v, n, p, true, true, now, v.board, []);
    }

    /**
      `_ai_advanced_shot` in destroy mode with no locked direction: pops
      directions front first, skipping those whose target from the origin
      is not valid, and fires one unseeded probe at the first valid one,
      locking its direction on a hit. When the directions run out: back to
      search and one seeded random shot. Returns the cells fired at.
    */
    method ProbeShot(n: int, now: int) returns (fired: seq<Coord>)
      requires AiInv(View(), n) && CountUntried(state.playerBoard) >= 1
      requires aiMode == Destroy && destroyOrigin.Some? && currentDirection == None
      modifies state`playerBoard, state`playerShips, state`lastPlayerHit, state`aiTargets
      modifies state`aiShots, state`aiHits, state`aiShotTimes, state`winner, state`scene
      modifies this`aiMode, this`destroyOrigin, this`destroyDirections, this`currentDirection
      ensures ProbeOutcome(old(View()), old(Mem()), n, now, fired, View(), Mem())
      ensures AiInv(View(), n) && FreshShots(old(state.playerBoard), fired) && |fired| == 1
      ensures state.playerBoard == ResolveAll(old(state.playerBoard), fired)
    {
      var d := PopValidProbe(n);
      if d.Some? {
        var t := ProbeAt(n, d.value, now);
        fired := [t];
      } else {
        var p := GiveUpDestroy(n, now);
        fired := [p];
      }
    }

    /** One unseeded probe from the origin in direction `d`, locking `d` on a hit. */
    method ProbeAt(n: int, d: Coord, now: int) returns (t: Coord)
      requires AiInv(View(), n) && destroyOrigin.Some? && ValidTarget(state.playerBoard, n, Step(destroyOrigin.value, d))
      modifies state`playerBoard, state`playerShips, state`lastPlayerHit, state`aiTargets
      modifies state`aiShots, state`aiHits, state`aiShotTimes, state`winner, state`scene
      modifies this`currentDirection
      ensures t == Step(destroyOrigin.value, d)
      ensures View() == Fire(old(View()), n, t, false, true, now)
      ensures currentDirection == if Get(old(state.playerBoard), t) == Ship then Some(d) else old(currentDirection)
      ensures AiInv(View(), n) && FreshShots(old(state.playerBoard), [t])
      ensures state.playerBoard == ResolveAll(old(state.playerBoard), [t])
    {
      ghost var v := View();
      t := Step(destroyOrigin.value, d);
      var hit := TakeShot(n, t, false, true, now);
      if hit {
        currentDirection := Some(d);
      }
      FireStep(v, n, t, false, true, now, v.board, []);
    }

    /** Destroy mode gives up: back to search, then one seeded random shot. */
    method GiveUpDestroy(n: int, now: int) returns (p: Coord)
      requires AiInv(View(), n) && CountUntried(state.playerBoard) >= 1
      modifies state`playerBoard, state`playerShips, state`lastPlayerHit, state`aiTargets
      modifies state`aiShots, state`aiHits, state`aiShotTimes, state`winner, state`scene
      modifies this`aiMode, this`destroyOrigin, this`destroyDirections, this`currentDirection
      ensures aiMode == Search && destroyOrigin == None && destroyDirections == [] && currentDirection == None
      ensures ValidTarget(old(state.playerBoard), n, p)
      ensures View() == Fire(old(View()), n, p, true, true, now)
      ensures AiInv(View(), n) && FreshShots(old(state.playerBoard), [p])
      ensures state.playerBoard == ResolveAll(old(state.playerBoard), [p])
    {
      ghost var v := View();
      ResetDestroyMode();
      p := AiShotRandom(n, true, now);
      FireStep(v, n, p, true, true, now, v.board, []);
    }

    /**
      The probe loop of `_ai_advanced_shot`: pops directions front first
      until one's target from the origin is valid and returns it, or None
      once the list is empty. Only the direction list changes.
    */
    method PopValidProbe(n: int) returns (d: Option<Coord>)
      requires destroyOrigin.Some?
      modifies this`destroyDirections
      ensures var dirs := old(destroyDirections);
              var k := FirstValidProbe(dirs, destroyOrigin.value, state.playerBoard, n);
              if k < |dirs| then d == Some(dirs[k]) && destroyDirections == dirs[k + 1..]
              else d == None && destroyDirections == []
    {
      ghost var dirs := destroyDirections;
      ghost var k := 0;
      var origin := destroyOrigin.value;
      while destroyDirections != []
        invariant 0 <= k <= |dirs| && destroyDirections == dirs[k..]
        invariant forall i :: 0 <= i < k ==> !ValidTarget(state.playerBoard, n, Step(origin, dirs[i]))
        decreases |destroyDirections|
      {
        var dir := destroyDirections[0];
        destroyDirections := destroyDirections[1..];
        k := k + 1;
        if ValidTarget(state.playerBoard, n, Step(origin, dir)) {
          return Some(dir);
        }
      }
      return None;
    }

    /**
      After a missed follow shot: reverse the locked direction, make the
      origin the last hit again and, when the cell beyond the origin that
      way is valid, fire one unseeded shot there. Returns the cells fired at.
    */
    method ReverseShot(n: int, now: int) returns (fired: seq<Coord>)
      requires AiInv(View(), n) && destroyOrigin.Some? && currentDirection.Some?
      modifies state`playerBoard, state`playerShips, state`lastPlayerHit, state`aiTargets
      modifies state`aiShots, state`aiHits, state`aiShotTimes, state`winner, state`scene
      modifies this`currentDirection
      ensures currentDirection == Some(Reverse(old(currentDirection).value))
      ensures var o := old(destroyOrigin).value;
              (View(), fired) == ReverseFrom(old(View()).(lastHit := Some(o)), n, o, old(currentDirection).value, now)
      ensures AiInv(View(), n) && FreshShots(old(state.playerBoard), fired)
      ensures state.playerBoard == ResolveAll(old(state.playerBoard), fired)
    {
      var d := currentDirection.value;
      currentDirection := Some(Reverse(d));
      state.lastPlayerHit := destroyOrigin;
      ghost var v := View();
      var t := Step(destroyOrigin.value, Reverse(d));
      if ValidTarget(state.playerBoard, n, t) {
        var hit := TakeShot(n, t, false, true, now);
        fired := [t];
        FireStep(v, n, t, false, true, now, v.board, []);
      } else {
        fired := [];
      }
    }

    /**
      `_ai_advanced_shot` in destroy mode with a locked direction: one
      unseeded shot at the next cell beyond the last hit. A hit stays in
      destroy mode. A miss reverses the direction, returns to the origin and
      fires beyond it when that cell is valid; after a miss, and when the
      follow cell is not valid, the strategy goes back to search and fires
      one seeded random shot. So a call fires one to three shots.
    */
    method FollowShot(n: int, now: int) returns (fired: seq<Coord>)
      requires AiInv(View(), n) && CountUntried(state.playerBoard) >= FollowNeeded(View(), Mem(), n)
      requires aiMode == Destroy && destroyOrigin.Some? && currentDirection.Some? && state.lastPlayerHit.Some?
      modifies state`playerBoard, state`playerShips, state`lastPlayerHit, state`aiTargets
      modifies state`aiShots, state`aiHits, state`aiShotTimes, state`winner, state`scene
      modifies this`aiMode, this`destroyOrigin, this`destroyDirections, this`currentDirection
      ensures FollowOutcome(old(View()), old(Mem()), n, now, fired, View(), Mem())
      ensures AiInv(View(), n) && 1 <= |fired| <= 3 && FreshShots(old(state.playerBoard), fired)
      ensures state.playerBoard == ResolveAll(old(state.playerBoard), fired)
    {
      ghost var b := state.playerBoard;
      var hit;
      fired, hit := FollowStep(n, now);
      if !hit {
        FreshShotsCount(b, fired);
        var p := GiveUpDestroy(n, now);
        FreshAppend(b, fired, [p]);
        fired := fired + [p];
      }
    }

    /**
      The part of the follow step before the closing random shot: the
      follow shot when its cell is valid, and after a miss the reversal.
      `hit` tells whether the follow shot hit, which ends the call.
    */
    method FollowStep(n: int, now: int) returns (fired: seq<Coord>, hit: bool)
      requires AiInv(View(), n)
      requires destroyOrigin.Some? && currentDirection.Some? && state.lastPlayerHit.Some?
      modifies state`playerBoard, state`playerShips, state`lastPlayerHit, state`aiTargets
      modifies state`aiShots, state`aiHits, state`aiShotTimes, state`winner, state`scene
      modifies this`currentDirection
      ensures var b := old(state.playerBoard);
              var t := Step(old(state.lastPlayerHit).value, old(currentDirection).value);
              hit == (ValidTarget(b, n, t) && Get(b, t) == Ship) &&
              if hit then
                fired == [t] && View() == Fire(old(View()), n, t, false, true, now) &&
                currentDirection == old(currentDirection)
              else
                var (w, before) := if ValidTarget(b, n, t)
                                   then AfterReverse(old(View()), n, t, old(destroyOrigin).value, old(currentDirection).value, now)
                                   else (old(View()), []);
                fired == before && View() == w
      ensures AiInv(View(), n) && |fired| <= 2 && FreshShots(old(state.playerBoard), fired)
      ensures state.playerBoard == ResolveAll(old(state.playerBoard), fired)
    {
      ghost var b := state.playerBoard;
      ghost var o, d := destroyOrigin.value, currentDirection.value;
      var t := Step(state.lastPlayerHit.value, currentDirection.value);
      if ValidTarget(state.playerBoard, n, t) {
        ghost var v := View();
        hit := TakeShot(n, t, false, true, now);
        FireStep(v, n, t, false, true, now, b, []);
        fired := [t];
        if hit {
          return;
        }
        var rev := ReverseShot(n, now);
        FreshAppend(b, fired, rev);
        fired := fired + rev;
      } else {
        fired := [];
        hit := false;
      }
    }

    /**
      `_ai_advanced_shot`, the Hard strategy: dispatches on the mode and on
      whether a direction is locked. It fires one to three shots, each at a
      cell untried just before it, and keeps the engine's invariant and the
      strategy's memory consistent.
    */
    method AiAdvancedShot(n: int, now: int) returns (fired: seq<Coord>)
      requires Valid(n) && CountUntried(state.playerBoard) >= UntriedNeeded("Hard", View(), Mem(), n)
      modifies state`playerBoard, state`playerShips, state`lastPlayerHit, state`aiTargets
      modifies state`aiShots, state`aiHits, state`aiShotTimes, state`winner, state`scene
      modifies this`aiMode, this`destroyOrigin, this`destroyDirections, this`currentDirection
      ensures HardOutcome(old(View()), old(Mem()), n, now, fired, View(), Mem())
      ensures Valid(n) && 1 <= |fired| <= 3
      ensures FreshShots(old(state.playerBoard), fired) && state.playerBoard == ResolveAll(old(state.playerBoard), fired)
    {
      if aiMode == Search {
        var p := SearchShot(n, now);
        fired := [p];
      } else if currentDirection == None {
        fired := ProbeShot(n, now);
      } else {
        fired := FollowShot(n, now);
      }
    }

    /**
      handle_ai_turn: nothing happens until an AI turn is pending and 1000
      ms have passed since it was scheduled. Then Easy fires one unseeded
      random shot, Medium one shot from the neighbour queue (a seeded random
      one when the queue is empty), Hard its strategy's one to three shots,
      and the turn is no longer pending. Every shot lands on a cell untried
      just before it.
    */
    method HandleAiTurn(n: int, now: int) returns (fired: seq<Coord>)
      requires Valid(n)
      requires state.aiTurnPending && now - state.aiTurnStartTime >= 1000 ==>
                 CountUntried(state.playerBoard) >= UntriedNeeded(state.difficulty, View(), Mem(), n)
      modifies state`playerBoard, state`playerShips, state`lastPlayerHit, state`aiTargets
      modifies state`aiShots, state`aiHits, state`aiShotTimes, state`winner, state`scene
      modifies this`aiMode, this`destroyOrigin, this`destroyDirections, this`currentDirection
      modifies state`aiTurnPending
      ensures Valid(n)
      ensures !old(state.aiTurnPending) || now - state.aiTurnStartTime < 1000 ==>
                fired == [] && View() == old(View()) && state.aiTurnPending == old(state.aiTurnPending) &&
                aiMode == old(aiMode) && destroyOrigin == old(destroyOrigin) &&
                destroyDirections == old(destroyDirections) && currentDirection == old(currentDirection)
      ensures old(state.aiTurnPending) && now - state.aiTurnStartTime >= 1000 ==>
                !state.aiTurnPending && 1 <= |fired| <= 3 &&
                AiOutcome(state.difficulty, old(View()), old(Mem()), n, now, fired, View(), Mem()) &&
                (state.difficulty in {"Easy", "Medium"} ==> |fired| == 1) &&
                FreshShots(old(state.playerBoard), fired) && state.playerBoard == ResolveAll(old(state.playerBoard), fired)
    {
      if !state.aiTurnPending || now - state.aiTurnStartTime < 1000 {
        return [];
      }
      fired := AiShot(n, now);
      state.aiTurnPending := false;
    }

    /** The shot or shots of one AI turn, by difficulty; anything but "Easy" and "Medium" plays Hard. */
    method AiShot(n: int, now: int) returns (fired: seq<Coord>)
      requires Valid(n)
      requires CountUntried(state.playerBoard) >= UntriedNeeded(state.difficulty, View(), Mem(), n)
      modifies state`playerBoard, state`playerShips, state`lastPlayerHit, state`aiTargets
      modifies state`aiShots, state`aiHits, state`aiShotTimes, state`winner, state`scene
      modifies this`aiMode, this`destroyOrigin, this`destroyDirections, this`currentDirection
      ensures AiOutcome(state.difficulty, old(View()), old(Mem()), n, now, fired, View(), Mem())
      ensures Valid(n) && 1 <= |fired| <= 3 && (state.difficulty in {"Easy", "Medium"} ==> |fired| == 1)
      ensures FreshShots(old(state.playerBoard), fired) && state.playerBoard == ResolveAll(old(state.playerBoard), fired)
    {
      var diff := state.difficulty;
      if diff == "Easy" {
        var p := AiShotRandom(n, false, now);
        fired := [p];
      } else if diff == "Medium" {
        var p := MediumShot(n, now);
        fired := [p];
      } else {
        fired := AiAdvancedShot(n, now);
      }
    }

    /** Medium: a shot from the neighbour queue, or a seeded random shot when it is empty. */
    method MediumShot(n: int, now: int) returns (p: Coord)
      requires AiInv(View(), n) && CountUntried(state.playerBoard) >= 1
      modifies state`playerBoard, state`playerShips, state`lastPlayerHit, state`aiTargets
      modifies state`aiShots, state`aiHits, state`aiShotTimes, state`winner, state`scene
      ensures MediumOutcome(old(View()), n, now, p, View())
      ensures AiInv(View(), n) && FreshShots(old(state.playerBoard), [p])
      ensures state.playerBoard == ResolveAll(old(state.playerBoard), [p])
      ensures old(state.lastPlayerHit).Some? ==> state.lastPlayerHit.Some?
    {
      if state.aiTargets != [] {
        p := AiShotFromTargets(n, now);
      } else {
        p := AiShotRandom(n, true, now);
      }
    }

    function PView(): PlayerView
      reads state`playerAttacks, state`computerBoard, state`computerShips, state`playerShots, state`playerHits
      reads state`playerShotTimes, state`winner, state`scene, state`aiTurnPending, state`aiTurnStartTime
    {
      PlayerView(state.playerAttacks, state.computerBoard, state.computerShips, state.playerShots,
                 state.playerHits, state.playerShotTimes, state.winner, state.scene,
                 state.aiTurnPending, state.aiTurnStartTime)
    }

    /**
      handle_event: only a left-button press inside the enemy grid does
      anything. In a networked match it queues a shot at an attack cell
      still Empty when it is the player's turn and hands the turn over; in
      single player it fires at an Empty attack cell when no AI turn is
      pending.
    */
    method HandleEvent(cfg: Config, ev: Event, now: int)
      requires cfg.Valid() && IsBoard(state.playerAttacks, cfg.gridSize)
      requires state.network == null ==> PlayerInv(PView(), cfg.gridSize)
      modifies state`playerAttacks, state`computerBoard, state`computerShips, state`playerShots, state`playerHits
      modifies state`playerShotTimes, state`winner, state`scene, state`aiTurnPending, state`aiTurnStartTime
      modifies state`pendingShot, this`myTurn
      ensures IsBoard(state.playerAttacks, cfg.gridSize)
      ensures state.network == null ==> PlayerInv(PView(), cfg.gridSize)
      ensures var c := ClickedCell(ev, cfg.enemyOffsetX, cfg.boardOffsetY + TOP_BAR_HEIGHT, cfg.cellSize, cfg.gridSize);
              if c.None? then
                PView() == old(PView()) && state.pendingShot == old(state.pendingShot) && myTurn == old(myTurn)
              else if state.network != null then
                if old(myTurn) && Get(old(state.playerAttacks), c.value) == Empty
                then PView() == old(PView()).(shots := old(state.playerShots) + 1, times := old(state.playerShotTimes) + [now]) &&
                     state.pendingShot == c && !myTurn
                else PView() == old(PView()) && state.pendingShot == old(state.pendingShot) && myTurn == old(myTurn)
              else
                state.pendingShot == old(state.pendingShot) && myTurn == old(myTurn) &&
                if !old(state.aiTurnPending) && Get(old(state.playerAttacks), c.value) == Empty
                then PView() == PlayerShot(old(PView()), c.value, now)
                else PView() == old(PView())
    {
      if !(ev.MouseDown? && ev.button == 1) {
        return;
      }
      var pos := GetGridPos(ev.x, ev.y, cfg.enemyOffsetX, cfg.boardOffsetY + TOP_BAR_HEIGHT, cfg.cellSize, cfg.gridSize);
      if pos.None? {
        return;
      }
      if state.network != null {
        NetworkClick(cfg.gridSize, pos.value, now);
      } else {
        PlayerClick(cfg.gridSize, pos.value, now);
      }
    }

    /** The networked click: queue the shot for handle_network_turn and hand the turn over. */
    method NetworkClick(n: int, p: Coord, now: int)
      requires IsBoard(state.playerAttacks, n) && InBounds(n, p)
      modifies state`playerShots, state`playerShotTimes, state`pendingShot, this`myTurn
      ensures if old(myTurn) && Get(state.playerAttacks, p) == Empty
              then PView() == old(PView()).(shots := old(state.playerShots) + 1, times := old(state.playerShotTimes) + [now]) &&
                   state.pendingShot == Some(p) && !myTurn
              else PView() == old(PView()) && state.pendingShot == old(state.pendingShot) && myTurn == old(myTurn)
    {
      if !myTurn {
        return;
      }
      if state.playerAttacks[p.0][p.1] != Empty {
        return;
      }
      state.playerShots := state.playerShots + 1;
      state.playerShotTimes := state.playerShotTimes + [now];
      state.pendingShot := Some(p);
      myTurn := false;
    }

    /** The single-player click at `p`. */
    method PlayerClick(n: int, p: Coord, now: int)
      requires PlayerInv(PView(), n) && InBounds(n, p)
      modifies state`playerAttacks, state`computerBoard, state`computerShips, state`playerShots, state`playerHits
      modifies state`playerShotTimes, state`winner, state`scene, state`aiTurnPending, state`aiTurnStartTime
      ensures PlayerInv(PView(), n)
      ensures if !old(state.aiTurnPending) && Get(old(state.playerAttacks), p) == Empty
              then PView() == PlayerShot(old(PView()), p, now)
              else PView() == old(PView())
    {
      if !state.aiTurnPending && state.playerAttacks[p.0][p.1] == Empty {
        ghost var v := PView();
        state.playerShots := state.playerShots + 1;
        state.playerShotTimes := state.playerShotTimes + [now];
        ResolvePlayerShot(p);
        FinishPlayerShot(now);
        PlayerShotSpec(v, n, p, now);
      }
    }

    method ResolvePlayerShot(p: Coord)
      requires OnBoard(state.playerAttacks, p) && OnBoard(state.computerBoard, p)
      modifies state`playerAttacks, state`computerBoard, state`computerShips, state`playerHits
      ensures PView() == ResolvePlayer(old(PView()), p)
    {
      if state.computerBoard[p.0][p.1] == Ship {
        state.playerHits := state.playerHits + 1;
        state.playerAttacks := Set(state.playerAttacks, p, Hit);
        state.computerBoard := Set(state.computerBoard, p, Hit);
        state.computerShips := state.computerShips - 1;
      } else {
        state.playerAttacks := Set(state.playerAttacks, p, Miss);
      }
    }

    method FinishPlayerShot(now: int)
      modifies state`winner, state`scene, state`aiTurnPending, state`aiTurnStartTime
      ensures PView() == AfterPlayerShot(old(PView()), now)
    {
      if state.computerShips == 0 {
        state.winner := Some(PlayerWon);
        state.scene := Stats;
        return;
      }
      state.aiTurnPending := true;
      state.aiTurnStartTime := now;
    }

    function NView(net: Channel): NetView
      reads net`inbox, net`outbox, this`awaitingResult, this`myTurn, state`pendingShot
      reads state`playerBoard, state`playerShips, state`lastPlayerHit, state`aiTargets
      reads state`aiShots, state`aiHits, state`aiShotTimes, state`winner, state`scene
      reads state`playerAttacks, state`computerBoard, state`computerShips, state`playerShots, state`playerHits
      reads state`playerShotTimes, state`aiTurnPending, state`aiTurnStartTime
    {
      NetView(View(), PView(), net.inbox, net.outbox, state.pendingShot, awaitingResult, myTurn)
    }

    /**
      handle_network_turn: nothing without a connection; otherwise one step
      of the shot protocol as NetTurn describes it.
    */
    method HandleNetworkTurn(n: int, now: int)
      requires state.network != null ==> NetInv(NView(state.network), n)
      modifies state.network, this`awaitingResult, this`myTurn, state`pendingShot
      modifies state`playerBoard, state`playerShips, state`lastPlayerHit, state`aiTargets
      modifies state`aiShots, state`aiHits, state`aiShotTimes, state`winner, state`scene
      modifies state`playerAttacks, state`playerHits, state`computerShips
      ensures state.network == null ==>
                View() == old(View()) && PView() == old(PView()) && state.pendingShot == old(state.pendingShot) &&
                awaitingResult == old(awaitingResult) && myTurn == old(myTurn)
      ensures state.network != null ==> NView(state.network) == NetTurn(old(NView(state.network)), n, now) && NetInv(NView(state.network), n)
    {
      var net := state.network;
      if net == null {
        return;
      }
      ghost var v := NView(net);
      NetTurnInv(v, n, now);
      if state.pendingShot.Some? {
        if !awaitingResult {
          SendPendingShot(net);
        } else {
          AwaitResult(net);
        }
      } else {
        AnswerPeerShot(n, net, now);
      }
    }

    method SendPendingShot(net: Channel)
      requires net == state.network && state.pendingShot.Some?
      modifies net`outbox, this`awaitingResult
      ensures NView(net) == SendShot(old(NView(net)))
    {
      var p := state.pendingShot.value;
      net.Send(ShotMsg(p.0, p.1));
      awaitingResult := true;
    }

    method AwaitResult(net: Channel)
      requires net == state.network && state.pendingShot.Some? && OnBoard(state.playerAttacks, state.pendingShot.value)
      modifies net`inbox, this`awaitingResult, state`pendingShot, state`winner, state`scene
      modifies state`playerAttacks, state`playerHits, state`computerShips
      ensures NView(net) == TakeResult(old(NView(net)))
    {
      var m := net.Recv();
      if m.Some? && m.value.ResultMsg? {
        SettleShot(m.value.hit == Some(true));
      }
    }

    /** A result arrived for the shot in flight: record it and stop waiting. */
    method SettleShot(hit: bool)
      requires state.pendingShot.Some? && OnBoard(state.playerAttacks, state.pendingShot.value)
      modifies this`awaitingResult, state`pendingShot, state`winner, state`scene
      modifies state`playerAttacks, state`playerHits, state`computerShips
      ensures PView() == NetworkResult(old(PView()), old(state.pendingShot.value), hit)
      ensures View() == old(View()).(winner := state.winner, scene := state.scene)
      ensures !awaitingResult && state.pendingShot == None
    {
      ApplyNetworkResult(state.pendingShot.value, hit);
      awaitingResult := false;
      state.pendingShot := None;
    }

    method ApplyNetworkResult(p: Coord, hit: bool)
      requires OnBoard(state.playerAttacks, p)
      modifies state`playerAttacks, state`playerHits, state`computerShips, state`winner, state`scene
      ensures PView() == NetworkResult(old(PView()), p, hit)
    {
      state.playerAttacks := Set(state.playerAttacks, p, if hit then Hit else Miss);
      if hit {
        state.playerHits := state.playerHits + 1;
        state.computerShips := state.computerShips - 1;
        if state.computerShips == 0 {
          state.winner := Some(PlayerWon);
          state.scene := Stats;
        }
      }
    }

    method AnswerPeerShot(n: int, net: Channel, now: int)
      requires net == state.network && IsBoard(state.playerBoard, n) && ShotsInBounds(net.inbox, n)
      modifies net`inbox, net`outbox, this`myTurn
      modifies state`playerBoard, state`playerShips, state`lastPlayerHit, state`aiTargets
      modifies state`aiShots, state`aiHits, state`aiShotTimes, state`winner, state`scene
      ensures NView(net) == AnswerPeer(old(NView(net)), n, now)
    {
      ghost var v := NView(net);
      var m := net.Recv();
      if m.Some? && m.value.ShotMsg? {
        assert m.value == v.inbox[0];
        ReplyToShot(n, net, (m.value.row, m.value.col), now);
        AnswerPeerParts(v, n, now, NView(net));
      }
    }

    /** A peer shot at `p`: resolve it on the player's board, answer it, and take the turn unless it sank the last ship. */
    method ReplyToShot(n: int, net: Channel, p: Coord, now: int)
      requires net == state.network && IsBoard(state.playerBoard, n) && InBounds(n, p)
      modifies net`outbox, this`myTurn
      modifies state`playerBoard, state`playerShips, state`lastPlayerHit, state`aiTargets
      modifies state`aiShots, state`aiHits, state`aiShotTimes, state`winner, state`scene
      ensures View() == Fire(old(View()), n, p, false, false, now)
      ensures PView() == old(PView()).(winner := state.winner, scene := state.scene)
      ensures net.outbox == old(net.outbox) + [ResultMsg(Some(Get(old(state.playerBoard), p) == Ship))]
      ensures myTurn == if Get(old(state.playerBoard), p) == Ship && state.playerShips == 0 then old(myTurn) else true
    {
      var hit := PeerShot(n, p, now);
      net.Send(ResultMsg(Some(hit)));
      if !(hit && state.playerShips == 0) {
        myTurn := true;
      }
    }

    /** The peer's shot lands on the player's board like an AI shot that is neither counted as an AI hit nor queues neighbours. */
    method PeerShot(n: int, p: Coord, now: int) returns (hit: bool)
      requires IsBoard(state.playerBoard, n) && InBounds(n, p)
      modifies state`playerBoard, state`playerShips, state`lastPlayerHit, state`aiTargets
      modifies state`aiShots, state`aiHits, state`aiShotTimes, state`winner, state`scene
      ensures hit == (Get(old(state.playerBoard), p) == Ship)
      ensures View() == Fire(old(View()), n, p, false, false, now)
      ensures PView() == old(PView()).(winner := state.winner, scene := state.scene)
    {
      hit := TakeShot(n, p, false, false, now);
    }

    /** `_reset_destroy_mode`: back to search with no memory. */
    method ResetDestroyMode()
      modifies this`aiMode, this`destroyOrigin, this`destroyDirections, this`currentDirection
      ensures aiMode == Search && destroyOrigin == None && destroyDirections == [] && currentDirection == None
    {
      aiMode := Search;
      destroyOrigin := None;
      destroyDirections := [];
      currentDirection := None;
    }
  }
}
