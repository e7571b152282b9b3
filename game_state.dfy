/**
  The shared match state (core/game_state.py): the three boards, ship
  counters, AI memory, statistics, scene and flags.

  The source adds several attributes to this object from other modules
  (the network link, the host flag, the pending network shot, the shot
  time lists, the pass-and-play fields, the placement sync flags, the
  winner). The model declares them all here and gives them the values
  they have before those modules first assign them.
*/
module CoreGameState {
  import opened Wrappers
  import opened BoardHelpers
  import opened CoreConfig
  import opened NetworkChannel
  import opened DraggableShipModel

  /** The screen the main loop dispatches to (the source's scene names). */
  datatype Scene = Menu | Lobby | Settings | Placing | Playing | Stats

  /** The source's winner strings "Player" and "AI". */
  datatype Winner = PlayerWon | AiWon

  function Sum(s: seq<int>): int {
    if s == [] then 0 else s[0] + Sum(s[1..])
  }

  /** Every retry sequence draws start cells inside the grid for its ship, as randint does. */
  predicate DrawsInRange(n: int, sizes: seq<int>, draws: seq<seq<Draw>>) {
    |draws| == |sizes| &&
    forall i, k :: 0 <= i < |sizes| && 0 <= k < |draws[i]| ==> DrawInRange(n, sizes[i], draws[i][k])
  }

  predicate NonNegative(sizes: seq<int>) {
    forall i :: 0 <= i < |sizes| ==> sizes[i] >= 0
  }

  /**
    The fleet placed ship after ship, each at the first free draw of its
    own retry sequence; None when some ship's draws run out. Because every
    placement only writes Empty cells, the result holds exactly the fleet's
    total number of ship cells more than `b`.
  */
  function PlaceAll(b: Board, sizes: seq<int>, draws: seq<seq<Draw>>): (r: Option<Board>)
    requires |draws| == |sizes| && NonNegative(sizes)
    ensures r.Some? ==> SameShape(b, r.value)
    ensures r.Some? ==> CountCells(r.value, Ship) == CountCells(b, Ship) + Sum(sizes)
    decreases |sizes|
  {
    if sizes == [] then Some(b)
    else
      match FirstFit(b, sizes[0], draws[0])
      case None => None
      case Some(d) =>
        var span := DrawSpan(d, sizes[0]);
        SetAllShipCount(b, span);
        PlaceAll(SetAll(b, span, Ship), sizes[1..], draws[1..])
  }

  /** The draws let reset place the whole fleet on a fresh n-by-n board. */
  predicate PlacementDraws(n: nat, sizes: seq<int>, draws: seq<seq<Draw>>) {
    DrawsInRange(n, sizes, draws) && NonNegative(sizes) &&
    (forall i :: 0 <= i < |sizes| ==> sizes[i] <= n) &&
    PlaceAll(CreateBoard(n), sizes, draws).Some?
  }

  /** count_ships: the SHIP cells left on a board, row by row; zero exactly when none is left. */
  function CountShips(board: Board): (k: nat)
    ensures k == CountCells(board, Ship)
    ensures k == 0 <==> forall i, j :: 0 <= i < |board| && 0 <= j < |board[i]| ==> board[i][j] != Ship
  {
    CountCellsZero(board, Ship);
    CountCells(board, Ship)
  }

  class GameState {
    var playerBoard: Board
    var computerBoard: Board
    var playerAttacks: Board
    var playerShips: int
    var computerShips: int

    var difficulty: string
    var aiTargets: seq<Coord>
    var lastPlayerHit: Option<Coord>

    var playerShots: int
    var playerHits: int
    var aiShots: int
    var aiHits: int
    var playerShotTimes: seq<int>
    var aiShotTimes: seq<int>

    var userText: string
    var playerName: string
    var shipIndex: int
    var aiTurnPending: bool
    var aiTurnStartTime: int

    var scene: Scene
    var winner: Option<Winner>
    var showRestartModal: bool
    var showQuitModal: bool
    var audioEnabled: bool
    var running: bool

    var network: Channel?
    var isHost: bool
    var pendingShot: Option<Coord>
    var localReady: bool
    var remoteReady: bool
    var waitingForSync: bool
    var opponentLeft: bool
    var placedShips: seq<DraggableShip>

    var passPlayMode: bool
    var passPlayStage: int
    var passPlayBoards: seq<Board>
    var passPlayPlacedShips: seq<seq<seq<Coord>>>
    var passPlayAttacks: seq<Board>
    var currentPlayer: int
    var showPassModal: bool

    /**
      The constructor: modals closed, audio on, the given difficulty, empty
      AI memory and zero counters, then reset_all, then running. The source
      reads the initial difficulty from a Config attribute that
      core/config.py does not define; the model takes it as a parameter.
      The attributes that other screens add to the state are not set here,
      as in the source, so their values are unspecified. reset_all neither
      reads nor writes the difficulty, the audio flag or `running`, and it
      writes the modals, AI memory and counters again, so the model sets
      the first three before the reset and keeps only reset_all's writes of
      the others; the resulting state is the same.
    */
    constructor (initialDifficulty: string, n: nat, fleet: seq<int>, draws: seq<seq<Draw>>)
      requires PlacementDraws(n, fleet, draws)
      ensures difficulty == initialDifficulty && audioEnabled && running
      ensures BoardsReset(n, fleet, draws) && MatchCleared()
    {
      new;
      InitSettings(initialDifficulty);
      ResetAll(n, fleet, draws);
    }

    /** The constructor's own settings, and the main loop's running flag. */
    method InitSettings(initialDifficulty: string)
      modifies this`audioEnabled, this`difficulty, this`running
      ensures difficulty == initialDifficulty && audioEnabled && running
    {
      audioEnabled := true;
      difficulty := initialDifficulty;
      running := true;
    }

    /**
      reset: fresh Empty player and attack boards, and a fresh computer
      board with the fleet placed ship by ship. Placements never overlap,
      so the computer board holds the fleet's total of SHIP cells.
    */
    method Reset(n: nat, fleet: seq<int>, draws: seq<seq<Draw>>)
      requires PlacementDraws(n, fleet, draws)
      modifies this`playerBoard, this`computerBoard, this`playerAttacks
      ensures playerBoard == CreateBoard(n) && playerAttacks == CreateBoard(n)
      ensures PlaceAll(CreateBoard(n), fleet, draws) == Some(computerBoard)
      ensures IsBoard(computerBoard, n)
      ensures CountShips(computerBoard) == Sum(fleet)
    {
      playerBoard := CreateBoard(n);
      computerBoard := CreateBoard(n);
      playerAttacks := seq(n, _ => seq(n, _ => Empty));
      assert playerAttacks == CreateBoard(n);
      var sizes := fleet;
      for i := 0 to |sizes|
        invariant playerBoard == CreateBoard(n) && playerAttacks == CreateBoard(n)
        invariant IsBoard(computerBoard, n)
        invariant PlaceAll(computerBoard, sizes[i..], draws[i..]) == PlaceAll(CreateBoard(n), sizes, draws)
      {
        assert sizes[i..][1..] == sizes[i + 1..] && draws[i..][1..] == draws[i + 1..];
        var coords;
        computerBoard, coords := PlaceShipRandomly(computerBoard, n, sizes[i], draws[i]);
      }
      assert sizes[|sizes|..] == [] && draws[|sizes|..] == [];
    }

    /**
      What reset_with_counts leaves: Empty player and attack boards, the
      computer board the fleet's draws produce, no player ships yet and the
      computer's ships counted, which is the fleet's total.
    */
    predicate BoardsReset(n: nat, fleet: seq<int>, draws: seq<seq<Draw>>)
      requires |draws| == |fleet| && NonNegative(fleet)
      reads this`playerBoard, this`computerBoard, this`playerAttacks, this`playerShips, this`computerShips
    {
      playerBoard == CreateBoard(n) && playerAttacks == CreateBoard(n) &&
      PlaceAll(CreateBoard(n), fleet, draws) == Some(computerBoard) && IsBoard(computerBoard, n) &&
      playerShips == 0 && computerShips == CountShips(computerBoard) == Sum(fleet)
    }

    /**
      What the rest of reset_all leaves: empty texts, no pending AI turn,
      no AI memory, zero shot and hit counters, the menu scene and closed
      modals.
    */
    predicate MatchCleared()
      reads this`userText, this`playerName, this`shipIndex, this`aiTurnPending, this`aiTurnStartTime
      reads this`aiTargets, this`lastPlayerHit, this`playerShots, this`playerHits, this`aiShots, this`aiHits
      reads this`scene, this`showRestartModal, this`showQuitModal
    {
      userText == "" && playerName == "" && shipIndex == 0 &&
      !aiTurnPending && aiTurnStartTime == 0 &&
      aiTargets == [] && lastPlayerHit == None &&
      playerShots == 0 && playerHits == 0 && aiShots == 0 && aiHits == 0 &&
      scene == Menu && !showRestartModal && !showQuitModal
    }

    /** reset_with_counts: reset, then no player ships yet and the computer's ships counted. */
    method ResetWithCounts(n: nat, fleet: seq<int>, draws: seq<seq<Draw>>)
      requires PlacementDraws(n, fleet, draws)
      modifies this`playerBoard, this`computerBoard, this`playerAttacks, this`playerShips, this`computerShips
      ensures BoardsReset(n, fleet, draws)
    {
      Reset(n, fleet, draws);
      playerShips := 0;
      computerShips := CountShips(computerBoard);
    }

    /**
      reset_all, up to its callback: boards and counts, turn flags, AI
      memory, statistics, the menu scene and closed modals. The difficulty
      and the audio setting are not touched. The callback, run last, is
      PlacingLogic's reset (see PlacingModel.PlacingLogic.RestartMatch).
    */
    method ResetAll(n: nat, fleet: seq<int>, draws: seq<seq<Draw>>)
      requires PlacementDraws(n, fleet, draws)
      modifies this`playerBoard, this`computerBoard, this`playerAttacks, this`playerShips, this`computerShips
      modifies this`userText, this`playerName, this`shipIndex, this`aiTurnPending, this`aiTurnStartTime
      modifies this`aiTargets, this`lastPlayerHit, this`playerShots, this`playerHits, this`aiShots, this`aiHits
      modifies this`scene, this`showRestartModal, this`showQuitModal
      ensures BoardsReset(n, fleet, draws) && MatchCleared()
    {
      ResetWithCounts(n, fleet, draws);
      ClearMatchState();
    }

    /** The rest of reset_all, section by section: turn flags, AI memory, statistics, scene and modals. */
    method ClearMatchState()
      modifies this`userText, this`playerName, this`shipIndex, this`aiTurnPending, this`aiTurnStartTime
      modifies this`aiTargets, this`lastPlayerHit, this`playerShots, this`playerHits, this`aiShots, this`aiHits
      modifies this`scene, this`showRestartModal, this`showQuitModal
      ensures MatchCleared()
    {
      ResetGameplayState();
      ClearAiMemory();
      ResetStats();
      ResetSceneAndModals();
    }

    method ResetGameplayState()
      modifies this`userText, this`playerName, this`shipIndex, this`aiTurnPending, this`aiTurnStartTime
      ensures userText == "" && playerName == "" && shipIndex == 0
      ensures !aiTurnPending && aiTurnStartTime == 0
    {
      userText := "";
      playerName := "";
      shipIndex := 0;
      aiTurnPending := false;
      aiTurnStartTime := 0;
    }

    method ClearAiMemory()
      modifies this`aiTargets, this`lastPlayerHit
      ensures aiTargets == [] && lastPlayerHit == None
    {
      aiTargets := [];
      lastPlayerHit := None;
    }

    method ResetStats()
      modifies this`playerShots, this`playerHits, this`aiShots, this`aiHits
      ensures playerShots == 0 && playerHits == 0 && aiShots == 0 && aiHits == 0
    {
      playerShots := 0;
      playerHits := 0;
      aiShots := 0;
      aiHits := 0;
    }

    method ResetSceneAndModals()
      modifies this`scene, this`showRestartModal, this`showQuitModal
      ensures scene == Menu && !showRestartModal && !showQuitModal
    {
      scene := Menu;
      showRestartModal := false;
      showQuitModal := false;
    }
  }
}
