# Battleship core: a Dafny model

This project models the game logic of a Pygame Battleship game. It covers:

- the computer opponent's targeting engine (`PlayingModel.PlayingLogic`):
  - Easy: a random untried cell;
  - Medium: a FIFO queue of neighbours of its hits;
  - Hard: search, then probe the four directions, then follow the line, then reverse;
- the turn gating of the playing screen: the player's click, the 1000 ms AI delay and the networked shot/result exchange;
- the board model and shot resolver (`BoardHelpers`);
- ship counting and match reset (`CoreGameState`);
- the grid-size-driven layout and fleet (`CoreConfig`);
- ship placement with its ship queue, its drop and its undo (`PlacingModel`, `DraggableShipModel`);
- the settings screen's custom grid-size buffer (`SettingsLogicModel`);
- the lobby's `HOST:PORT` parsing (`LobbyLogicModel`);
- the sunk-ship decisions of the playing screen, including the breadth-first search over HIT cells (`PlayingRenderModel`);
- the ship-length scan (`DrawHelpers`);
- the colour formatting `rgb_to_hex` (`SettingsTk`).

## How the source maps to the model

Objects whose fields the source updates in place are Dafny classes. Their methods carry `modifies` clauses:

- `GameState`, `Config`, `PlacingLogic`, `PlayingLogic`, `DraggableShip`, `SettingsLogic`, `LobbyLogic`;
- the network link, `Channel`, which holds an inbox and an outbox of messages.

Boards are `seq<seq<Cell>>` fields. A method that writes a cell reassigns the field.

Pure computations are functions with lemmas about them. The methods of the targeting engine are each proved against a specification function on a value view of the state:

- `Fire`, `ApplyShot` and `Enqueued` for a shot at the player's board;
- `PlayerShot` for the player's shot;
- `NetTurn` for the networked turn.

The lemmas beside those functions state the game's invariants:

- a cell is never fired at twice (`FreshShots`);
- the ship counter always equals the number of SHIP cells;
- the neighbour queue holds in-grid cells, none twice;
- placement is all-or-nothing;
- the fleet's cells are conserved across placement and undo, recorded in a ghost history of boards.

Inputs the model cannot compute are parameters:

- randomness: an injected sequence of draws, or a nondeterministic choice of an untried cell;
- the clock: a `now` argument;
- the network: the `Channel`'s message queues.

## Model

| member | source | states |
|---|---|---|
| BoardHelpers.Set | game/board_helpers.py:58-65 | Writing one cell keeps the board's shape, puts the new value in that cell and leaves every other cell as it was. |
| BoardHelpers.SetAll | screens/placing_logic.py:76-78 | Writing a list of cells keeps the board's shape. |
| BoardHelpers.SetAllAt | game/board_helpers.py:34-36 | After writing a list of cells, a cell holds the written value exactly when it is in the list, and its old value otherwise. |
| BoardHelpers.CountCellsUpdate | core/game_state.py:51-53 | Overwriting one cell changes the count of any cell kind by exactly one cell's worth: the old value's contribution goes and the new value's comes in. |
| BoardHelpers.CountRowUpdate | core/game_state.py:51-53 | The same one-cell update law for a single row. |
| BoardHelpers.CountCellsZero | core/game_state.py:51-53 | A kind's count is zero exactly when no cell of the board holds it. |
| BoardHelpers.CountRowZero | core/game_state.py:51-53 | A row's count of a kind is zero exactly when no cell of the row holds it. |
| BoardHelpers.CountRowBound | core/game_state.py:51-53 | A row never counts more cells than it has. |
| BoardHelpers.CountCellsBound | core/game_state.py:51-53 | A board of at most n rows of n cells counts at most rows times n cells of any kind. |
| BoardHelpers.CountCellsWitness | core/game_state.py:51-53 | A positive count names a cell on the board that holds that kind. |
| BoardHelpers.SetAllShipCount | game/board_helpers.py:32-37 | Writing SHIP over distinct cells that were all EMPTY adds exactly their number to the SHIP count. |
| BoardHelpers.SetAllUndo | screens/placing_logic.py:193-197 | Writing EMPTY back over cells that were EMPTY before they were written as SHIP gives back the original board. |
| BoardHelpers.CreateBoard | game/board_helpers.py:21-23 | create_board gives an n-by-n board whose every cell is EMPTY, so it holds no SHIP cell. |
| BoardHelpers.CreateBoardUntried | game/board_helpers.py:21-23 | A fresh board has n times n untried cells. |
| BoardHelpers.CellKindsSum | game/board_helpers.py:15-19 | Every cell is exactly one of EMPTY, SHIP, MISS and HIT: their four counts add up to the number of cells. |
| BoardHelpers.RowKindsSum | game/board_helpers.py:15-19 | The same partition for one row. |
| BoardHelpers.ResolveCounts | game/board_helpers.py:58-65 | A shot at an untried cell takes one off the SHIP count when the cell held a ship, and uses up exactly one untried cell. |
| BoardHelpers.FireAt | game/board_helpers.py:58-65 | fire_at reports a hit exactly when the cell held SHIP. The cell becomes HIT on a hit and MISS otherwise, even when it was already HIT. No other cell changes, and the SHIP count drops by one exactly on a hit. |
| BoardHelpers.FloorDivRange | game/board_helpers.py:52-54 | Floor division by a positive cell size brackets the pixel offset. The quotient lies in [0, n) exactly when the offset lies in [0, n times the cell size). |
| BoardHelpers.GetGridPos | game/board_helpers.py:48-56 | get_grid_pos gives a cell exactly when the offset-adjusted pixel lies inside the n-by-n grid. The cell is on the grid and is the one whose pixel square contains the point. |
| BoardHelpers.SpanCells | game/board_helpers.py:33-36 | A span is `size` cells from its start, one column apart when horizontal and one row apart when vertical. |
| BoardHelpers.FirstFit | game/board_helpers.py:27-46 | The draw the retry loop settles on has an all-EMPTY span. |
| BoardHelpers.FirstFitSpec | game/board_helpers.py:27-46 | No draw is taken exactly when no draw's span is free. Otherwise the draw taken is one of the draws, and every draw before it overlapped a non-EMPTY cell. |
| BoardHelpers.SpanInRange | game/board_helpers.py:30-31 | A start drawn in randint's ranges (column at most n - size when horizontal, row at most n - size when vertical) keeps every cell of the span on the grid, in increasing order. |
| BoardHelpers.SetAllSnoc | game/board_helpers.py:34-36 | Writing one more cell at the end of the list is one more single-cell write. |
| BoardHelpers.WriteSpan | game/board_helpers.py:34-36 | The cell-by-cell write loop leaves exactly the board with every cell of the span set. |
| BoardHelpers.PlaceShipRandomly | game/board_helpers.py:25-46 | The first draw whose span is all EMPTY is written as SHIP, and its cells are returned in order. No cell is written when no draw fits. On success exactly `size` previously EMPTY in-grid cells, contiguous and increasing, become SHIP, and the SHIP count grows by `size`. |
| CoreConfig.ShipsForGrid | core/config.py:28-38 | The fleet is a run of consecutive sizes ending in 3, so it is strictly decreasing. Its largest ship fits the grid once the grid has at least 3 cells. It holds a 6 exactly when the grid is larger than 12. |
| CoreConfig.CellSizeFor | core/config.py:44-48 | The cell size lies in [20, 60]. It is at most the raw size unless clamped up to 20, and at least the raw size unless clamped down to 60. |
| CoreConfig.CellSizeAntitone | core/config.py:44-48 | A larger grid never gets larger cells. |
| CoreConfig.LayoutFits | core/config.py:44-53 | When the clamp does not raise the cell size, both boards and the padding fit across the window, and the board plus four rows fits down it. |
| CoreConfig.Config.constructor | core/config.py:2-14 | The class defaults followed by update_layout: grid size 10, the fleet [5, 4, 3], and a layout consistent with the grid size. |
| CoreConfig.Config.GenerateShipsForGrid | core/config.py:28-38 | The fleet becomes the one for the current grid size. |
| CoreConfig.Config.UpdateLayout | core/config.py:40-55 | The cell size is clamped into [20, 60]. GRID_WIDTH is the grid size times the cell size. The enemy board starts SPACE_BETWEEN after the player's. The fleet is regenerated for the grid size. |
| DraggableShipModel.Rect.Centered | game/draggable_ship.py:50-59 | A rectangle built around a centre has that centre and the requested width and height. |
| DraggableShipModel.Flip | game/draggable_ship.py:55 | Rotation always changes the orientation. |
| DraggableShipModel.SpanFitsIff | screens/placing_logic.py:67-69 | For a non-empty ship, the source's bounds test passes exactly when every cell of the span is on the grid. |
| DraggableShipModel.DraggableShip.constructor | game/draggable_ship.py:14-44 | A ship of a size with a sprite is horizontal, not dragged, on no cell, and its rectangle is size cells wide and one cell high at (x, y). |
| DraggableShipModel.DraggableShip.Create | game/draggable_ship.py:23-25 | The constructor's size check: no ship exactly when the size has no sprite (not 3, 4 or 5); otherwise a fresh ship as the constructor gives it. |
| DraggableShipModel.DraggableShip.Rotate | game/draggable_ship.py:50-59 | The orientation flips. The new sprite is one cell wide and size cells high, centred where the old one was. |
| DraggableShipModel.DraggableShip.StartDragging | game/draggable_ship.py:61-64 | Dragging starts, remembering the sprite's top-left corner relative to the mouse. |
| DraggableShipModel.DraggableShip.StopDragging | game/draggable_ship.py:66-69 | Dragging stops and the offset is zeroed. |
| DraggableShipModel.DraggableShip.UpdatePosition | game/draggable_ship.py:71-75 | While dragging, the sprite keeps its offset from the mouse, so it moves by the mouse's displacement since the drag began. When not dragging it does not move. |
| DraggableShipModel.DraggableShip.Place | game/draggable_ship.py:77-82 | The ship records exactly the given cells. |
| DraggableShipModel.DraggableShip.PreviewCells | game/draggable_ship.py:84-110 | There is no preview exactly when some cell of the span would leave the grid. Otherwise the preview is `size` increasing in-grid cells whose middle cell is the one under the sprite's centre. The cells run one step at a time along the orientation from the anchor, which is size//2 cells back from that centre cell (Line). |
| DrawHelpers.RunBelowSpec | helpers/draw_helpers.py:74-79 | The scan below a cell covers only SHIP or HIT cells, stays on the board, and stops at the first cell that is neither or at the edge. |
| DrawHelpers.DetectShipLength | helpers/draw_helpers.py:72-79 | detect_ship_length is at least 1 and at most n - row. Every cell after the first is SHIP or HIT. The cell just past the run, when on the board, is neither. |
| SettingsTk.RgbToHex | screens/settings_tk.py:9-11 | The colour string starts with '#' and has at least seven characters. |
| SettingsTk.RgbToHexRoundTrip | screens/settings_tk.py:9-11 | For components in 0..255 the string has exactly seven characters, all after '#' hex digits. Reading each pair back gives R, G and B. |
| PyText.SkipSpace | screens/lobby_logic.py:89 | Scanning forward stops at the first non-whitespace character, having passed only whitespace. |
| PyText.SkipSpaceBack | screens/lobby_logic.py:89 | Scanning backward stops after the last non-whitespace character, having passed only whitespace. |
| PyText.StripSpec | screens/lobby_logic.py:89 | str.strip gives the middle of the text, with only whitespace cut off either side. The result neither begins nor ends with whitespace. It is empty exactly when the text is all whitespace. |
| PyText.StripTrimmed | screens/lobby_logic.py:96-97 | Text that neither begins nor ends with whitespace strips to itself. |
| PyText.ParseInt | screens/settings_logic.py:43 | int() of the buffer succeeds exactly when it is a non-empty run of digits. |
| PyText.DigitChar | screens/settings_logic.py:43 | A decimal digit's character is a digit. |
| PyText.Decimal | screens/lobby_logic.py:97-98 | A number's decimal spelling is a non-empty run of digits. |
| PyText.DecimalRoundTrip | screens/lobby_logic.py:97-98 | Reading a number's decimal spelling gives the number back. |
| PyText.FirstIndex | screens/lobby_logic.py:95 | The first occurrence of a character: it is there, and not before. |
| PyText.SplitFirst | screens/lobby_logic.py:95 | split(":", 1): the two parts around the first colon rebuild the text, and the left part holds no colon. |
| PyText.SplitFirstUnique | screens/lobby_logic.py:95 | Text made of a colon-free part, a colon and a rest splits back into exactly those parts. |
| PyText.Hex | screens/settings_tk.py:11 | A number's hex spelling is a non-empty run of hex digits. |
| PyText.Format02x | screens/settings_tk.py:11 | `{:02x}` gives at least two characters. |
| PyText.Format02xByte | screens/settings_tk.py:11 | For 0..255, `{:02x}` gives exactly two hex digits that read back as the value. |
| CoreGameState.PlaceAll | core/game_state.py:38-48 | Placing the fleet ship after ship keeps the board's shape. Because no placement overlaps, the board gains exactly the fleet's total of SHIP cells. |
| CoreGameState.CountShips | core/game_state.py:51-53 | count_ships is the number of SHIP cells, and zero exactly when no SHIP cell is left. |
| CoreGameState.GameState.constructor | core/game_state.py:7-31 | The given difficulty, audio on and running, after reset_all: the boards and counts reset and the match state cleared. |
| CoreGameState.GameState.InitSettings | core/game_state.py:7-31 | The difficulty, the audio flag and the running flag the constructor sets. |
| CoreGameState.GameState.Reset | core/game_state.py:34-48 | The player and attack boards are all EMPTY. The computer board is the fresh board with the fleet placed by its draws, and it holds exactly the fleet's total of SHIP cells. |
| CoreGameState.GameState.ResetWithCounts | core/game_state.py:56-63 | After reset, the player has no ships yet and the computer's ships are counted from its board, which gives the fleet's total. |
| CoreGameState.GameState.ResetAll | core/game_state.py:66-99 | Boards and counts are reset; turn flags, AI memory and statistics are cleared; the scene is the menu and both modals are closed. Difficulty and audio are not in its frame, so they are unchanged. |
| CoreGameState.GameState.ClearMatchState | core/game_state.py:80-99 | Every match field reset_all clears after the boards holds its cleared value. |
| CoreGameState.GameState.ResetGameplayState | core/game_state.py:80-84 | The texts are empty, the ship index is zero and no AI turn is pending. |
| CoreGameState.GameState.ClearAiMemory | core/game_state.py:87-88 | The neighbour queue is empty and no last hit is remembered. |
| CoreGameState.GameState.ResetStats | core/game_state.py:91-94 | All four shot and hit counters are zero. |
| CoreGameState.GameState.ResetSceneAndModals | core/game_state.py:97-99 | The scene is the menu and both modals are closed. |
| NetworkChannel.Channel.constructor | network.py:23-54 | A link whose queue holds the given incoming messages, with nothing sent. |
| NetworkChannel.Channel.Send | network.py:98-110 | A sent message is appended to what the peer will read. |
| NetworkChannel.Channel.Recv | network.py:112-120 | recv returns None when nothing is queued. Otherwise it returns and removes the oldest queued message. |
| LobbyLogicModel.StripIdempotent | screens/lobby_logic.py:89-96 | Stripping twice strips nothing more. |
| LobbyLogicModel.StripKeepsOut | screens/lobby_logic.py:95-96 | Stripping never adds a character, so a colon-free part stays colon-free. |
| LobbyLogicModel.ParseAddressSpec | screens/lobby_logic.py:89-98 | No address exactly when the text is blank. A parsed host has no colon and no surrounding whitespace. A parsed port is never negative. |
| LobbyLogicModel.JoinTrimmed | screens/lobby_logic.py:89-97 | A trimmed host, a colon and digits make trimmed text, since digits are not whitespace. |
| LobbyLogicModel.ParseHostDigits | screens/lobby_logic.py:93-98 | A clean host, a colon and a run of digits parse to that host and the digits' value. |
| LobbyLogicModel.AddressRoundTrip | screens/lobby_logic.py:93-98 | A clean host written with a port in decimal after a colon parses back to that host and port. |
| LobbyLogicModel.EditAddress | screens/lobby_logic.py:117-121 | Backspace drops exactly the last character. Printable text is appended and anything else is ignored. A printable buffer stays printable. |
| LobbyLogicModel.LobbyLogic.constructor | screens/lobby_logic.py:28-35 | An empty address, no panel open, no link, not waiting. |
| LobbyLogicModel.LobbyLogic.StartJoin | screens/lobby_logic.py:84-109 | The attempt is the parsed address: none for blank text, port 5000 by default. A blank text or a failed connection changes nothing. A connection hands the link to the game, as the joining side, and moves to placement. |
| LobbyLogicModel.LobbyLogic.HandleEvent | screens/lobby_logic.py:111-121 | Key presses edit the address as EditAddress says, and only while the join panel is open. Nothing else changes it. |
| SettingsLogicModel.EditBuffer | screens/settings_logic.py:28-32 | Backspace drops exactly the last character. Digit text is appended only while the buffer holds fewer than two characters. Since a key press yields at most one character, a buffer of at most two digits stays so. |
| SettingsLogicModel.CustomSize | screens/settings_logic.py:42-49 | The buffer gives a grid size exactly when it is all digits and reads as a value in 5..20, and then that value. |
| SettingsLogicModel.CustomSizeReachable | screens/settings_logic.py:30-49 | Every size in 5..20 can be typed into the two-character buffer and is read back as that size. |
| SettingsLogicModel.SettingsLogic.constructor | screens/settings_logic.py:16-20 | An empty buffer with the custom input hidden. |
| SettingsLogicModel.SettingsLogic.HandleEvent | screens/settings_logic.py:22-32 | Nothing happens unless the custom input is shown and a key is pressed. Return applies the buffer as ApplyCustomSize states; any other key edits the buffer as EditBuffer states. |
| SettingsLogicModel.SettingsLogic.ApplyGridSize | screens/settings_logic.py:34-37 | The new grid size, with layout and fleet recomputed for it. |
| SettingsLogicModel.SettingsLogic.ApplyCustomSize | screens/settings_logic.py:40-51 | A buffer reading as 5..20 becomes the grid size. Empty, non-numeric and out-of-range input leaves the configuration untouched. The buffer always ends empty and the input closed. |
| SettingsLogicModel.SettingsLogic.ToggleCustomInput | screens/settings_logic.py:53-56 | The input flag flips and the buffer is cleared. |
| SettingsLogicModel.SettingsLogic.ApplyDifficulty | screens/settings_logic.py:58-60 | The state's difficulty becomes the chosen level. |
| PlacingModel.SetupNeedsSmallGrid | core/config.py:31-38 | Every ship of a grid's fleet has a sprite exactly when the grid has at most 12 cells a side. |
| PlacingModel.FleetDistinct | screens/placing_logic.py:24-28 | The ships built for the fleet are distinct objects. |
| PlacingModel.PlacementSpanNone | screens/placing_logic.py:50-95 | Placement fails exactly when the centre is off the grid, a cell of the span is off the grid, or a cell of the span is not EMPTY. |
| PlacingModel.PlacementSpanSome | screens/placing_logic.py:58-94 | A placement is `size` distinct increasing in-grid cells, all EMPTY before. Its middle cell is the one under the centre. The cells run one step at a time along the orientation from the anchor size//2 back (Line). Writing it adds exactly `size` SHIP cells. |
| PlacingModel.FreeSpan | screens/placing_logic.py:67-94 | A span that passes the bounds test and is all EMPTY is `size` increasing in-grid cells in a line from its anchor, and marking it adds exactly `size` SHIP cells. |
| PlacingModel.SpanCellsOrdered | screens/placing_logic.py:76-78 | The cells of a span come in increasing order, none twice. |
| PlacingModel.PlacementStep | screens/placing_logic.py:75-94 | A placement found on a board is one step of the placement history. |
| PlacingModel.SnapRect | screens/placing_logic.py:113-127 | The drop snaps exactly when the anchor cell is on the grid. The sprite then keeps its size and moves its top-left corner to that cell's pixel position. |
| PlacingModel.FindPlacement | screens/placing_logic.py:50-95 | The search of try_place_on_grid (centre cell, anchor shift, bounds test, then the cells one by one) returns exactly PlacementSpan, with every returned cell on the board. |
| PlacingModel.CoordsOf | screens/placing_logic.py:164-166 | The copied list has one entry per placed ship, each that ship's cells. |
| PlacingModel.StackedCount | screens/placing_logic.py:129-131 | Along a placement history, the SHIP count grows by the total length of the placed spans. |
| PlacingModel.StackedSnoc | screens/placing_logic.py:129-131 | One more placement on the last board extends the history. |
| PlacingModel.SumSnoc | core/game_state.py:38-48 | A list's sum grows by its last element. |
| PlacingModel.SumLengthsOf | screens/placing_logic.py:24-28 | Spans whose lengths are the fleet's sizes hold the fleet's total of cells. |
| PlacingModel.NoDupAppend | screens/placing_logic.py:193-202 | The parts of a repetition-free list are repetition-free and share nothing. |
| PlacingModel.PlacingLogic.constructor | screens/placing_logic.py:10-22 | The empty screen around setup_ships: no ships, not ready, grid origin 34 and 31 pixels inside the board offsets. |
| PlacingModel.PlacingLogic.Create | screens/placing_logic.py:10-28 | Construction fails exactly when a fleet size has no sprite. Otherwise the screen holds the whole fleet, in order, with the bookkeeping and history invariant, nothing placed and the current board as the history's start. |
| PlacingModel.PlacingLogic.PlacedShipCells | screens/placing_logic.py:129-131 | The board holds the SHIP cells it started the round with, plus one per cell of every placed ship. |
| PlacingModel.PlacingLogic.ReadyBoard | screens/placing_logic.py:133-135 | Once ready, every ship of the fleet is placed, and the board holds exactly the fleet's total of cells more than at the start of the round. |
| PlacingModel.PlacingLogic.UpdateActiveAndPreview | screens/placing_logic.py:31-42 | The queue's front becomes the active ship, in the main area; none when the queue was empty. The new front is the preview, in the preview area; none when nothing is left. No other ship moves. |
| PlacingModel.PlacingLogic.Advance | screens/placing_logic.py:31-42 | Every ship of the round stays placed, active or queued, in fleet order, and the preview is the queue's front. |
| PlacingModel.PlacingLogic.BuildQueue | screens/placing_logic.py:24-28 | One fresh waiting ship per fleet size, in order. Nothing is built when a size has no sprite (the constructor raises). |
| PlacingModel.PlacingLogic.SetupShips | screens/placing_logic.py:24-29 | Setup succeeds exactly when every size has a sprite. Then the fleet is queued with the first ship active, under the invariant; otherwise nothing changes. |
| PlacingModel.PlacingLogic.Enlist | screens/placing_logic.py:25-29 | The built ships become the round: the invariant holds, nothing is placed, and the round starts on the current board. |
| PlacingModel.PlacingLogic.Reset | screens/placing_logic.py:212-218 | The screen is emptied and the fleet set up again on the current board; it fails exactly when a size has no sprite. |
| PlacingModel.PlacingLogic.TryPlaceOnGrid | screens/placing_logic.py:50-95 | Success exactly when PlacementSpan finds a span. Then exactly those cells become SHIP and are the ship's cells; on failure neither the board nor the ship changes. |
| PlacingModel.PlacingLogic.ActiveApart | screens/placing_logic.py:129-131 | The active ship is neither placed nor queued, and the queue repeats no ship. |
| PlacingModel.PlacingLogic.PlaceActive | screens/placing_logic.py:129-135 | Placement succeeds exactly when the ship's aim finds a span. On success the ship joins the placed list, the board gains exactly that span, and the screen is ready exactly when no ship is left. On failure nothing changes. The invariant holds either way. |
| PlacingModel.PlacingLogic.CommitPlaced | screens/placing_logic.py:129-135 | The active ship joins the placed list. The screen becomes ready exactly when no active ship is left. The invariant holds. |
| PlacingModel.PlacingLogic.RecordActive | screens/placing_logic.py:130 | The active ship is appended to the placed list and the history gains its span. |
| PlacingModel.PlacingLogic.PromoteNext | screens/placing_logic.py:131-135 | The next ship comes up, and the screen is ready exactly when no active ship is left. |
| PlacingModel.PlacingLogic.DropActive | screens/placing_logic.py:110-139 | Dragging stops. A snapped sprite moves to its cell. The drop crashes (snap_back) exactly when the snap or the placement fails, and then nothing else changes. Otherwise the ship is placed where the snapped sprite aims, records those cells, and the screen is ready exactly when no ship is left. The invariant holds. |
| PlacingModel.PlacingLogic.Release | screens/placing_logic.py:111-127 | Dragging stops. The sprite snaps exactly when the anchor cell is on the grid, and then its aim is what the drop computed. |
| PlacingModel.PlacingLogic.HandleEvent | screens/placing_logic.py:101-143 | Only a button-1 release can crash or place a ship; every other event leaves the ships and the board alone. A button-1 press on the active ship starts a drag, with the offset from the mouse to the sprite's top-left. Motion while dragging moves the sprite's top-left to the mouse plus the drag offset. A button-1 release while dragging stops the drag, then crashes exactly when the snap or the placement fails. Otherwise the ship is placed on its aimed cells, the board gains exactly them, and the screen is ready exactly when no ship is left. R flips the active ship. The invariant holds. |
| PlacingModel.PlacingLogic.Unplace | screens/placing_logic.py:194-197 | The last placed ship leaves the list. The board becomes exactly the board that ship was placed on, and the history loses its last step. |
| PlacingModel.PlacingLogic.Requeue | screens/placing_logic.py:199-210 | The old active ship goes back to the queue front. The unplaced ship is active in the main area. The queue front is the preview in the preview area. Not ready. |
| PlacingModel.PlacingLogic.UndoLastShip | screens/placing_logic.py:193-210 | With nothing placed nothing changes. Otherwise the last placed ship becomes active again in front of the queue, the board returns to the board it was placed on, and the screen is not ready. The re-activated sprite moves to the main area and the new preview to the preview area. The fleet is still accounted for. |
| PlacingModel.PlacingLogic.RestartMatch | core/game_state.py:101-102 | reset_all followed by its callback, this screen's reset: the match state is reset, and the fleet is set up again on a fresh empty board. |
| PlacingModel.PlacingLogic.OnReadyPressed | screens/placing_logic.py:159-191 | Stage 0 of pass-and-play saves seat 0 (board copy and ship cells) and shows the hand-over modal. Stage 2 saves seat 1 and starts play on seat 0's board and attacks, with player 0 to move. Otherwise a local game counts the ships and plays. A network game tells the peer and waits. |
| PlacingModel.PlacingLogic.SaveSeat | screens/placing_logic.py:163-166 | The seat holds a copy of the board and each placed ship's cells. |
| PlacingModel.PlacingLogic.StartPassPlay | screens/placing_logic.py:175-180 | Stage 3, player 0, seat 0's board and attacks, ships counted, playing. |
| PlacingModel.PlacingLogic.Update | screens/placing_logic.py:145-157 | While waiting for sync, one message is consumed. "placement_done" marks the peer ready and "disconnect" marks it gone. Play begins, with the ships counted, only once both sides are ready. With no message or no wait, nothing changes, the inbox included. |
| PlayingRenderModel.Min | screens/playing_render.py:65-66 | The minimum is an element and no element is below it. |
| PlayingRenderModel.Max | screens/playing_render.py:166-174 | The maximum is an element and no element is above it. |
| PlayingRenderModel.Rows | screens/playing_render.py:65 | The rows of the cells, in order. |
| PlayingRenderModel.Cols | screens/playing_render.py:66 | The columns of the cells, in order. |
| PlayingRenderModel.RowSetSingleton | screens/playing_render.py:67 | The cells occupy one row exactly when all share the first cell's row. |
| PlayingRenderModel.SunkShips | screens/playing_render.py:62-63 | A ship is listed as sunk exactly when it is a seat's ship and every one of its cells is HIT. |
| PlayingRenderModel.PassPlaySprite | screens/playing_render.py:64-73 | A sunk ship gets a sprite exactly when it has cells and its length has an image. The sprite sits at the ship's smallest row and column and is horizontal exactly when all cells share one row. |
| PlayingRenderModel.SpritesFor | screens/playing_render.py:62-73 | All sunk ships are drawn, in order, or none once one cannot be. |
| PlayingRenderModel.NeighbourAdjacent | screens/playing_render.py:150-151 | The four search directions reach exactly the side-adjacent cells, and adjacency is symmetric. |
| PlayingRenderModel.CellsSnoc | screens/playing_render.py:139-156 | Adding a cluster adds its cells. |
| PlayingRenderModel.NoDupJoin | screens/playing_render.py:152-156 | Appending new cells to a repetition-free list keeps it repetition-free. |
| PlayingRenderModel.FlattenCells | screens/playing_render.py:139-156 | The joined clusters hold exactly the clusters' cells. |
| PlayingRenderModel.ClosedUnion | screens/playing_render.py:139-156 | A union of clusters each closed under HIT neighbours is closed. |
| PlayingRenderModel.ClosedAfterSearch | screens/playing_render.py:148-156 | A search that visited every HIT neighbour of each cell, starting outside a closed set, leaves a cluster closed under HIT neighbours. |
| PlayingRenderModel.SpanBounds | screens/playing_render.py:166-174 | The extreme rows and columns of in-grid cells are on the grid. |
| PlayingRenderModel.ClusterSprite | screens/playing_render.py:157-183 | A cluster is shown exactly when its size has a sprite and no SHIP cell lies just beyond either end along its axis. The sprite sits at its smallest row and column and is horizontal exactly when all cells share the first cell's row. |
| PlayingRenderModel.SearchStep | screens/playing_render.py:152-156 | Adding an unvisited HIT neighbour keeps the search's cluster new, HIT, connected and repetition-free. |
| PlayingRenderModel.VisitNeighbours | screens/playing_render.py:149-156 | Expanding one cell visits all its HIT neighbours and only appends to the cluster and the queue; anything new came from the unvisited grid. |
| PlayingRenderModel.VisitOne | screens/playing_render.py:151-156 | A neighbour joins the cluster, the queue and the visited set exactly when it is on the grid, HIT and unvisited. |
| PlayingRenderModel.ExpandedMore | screens/playing_render.py:148-156 | Expanding the next queued cell extends the expanded prefix by one. |
| PlayingRenderModel.FewerUnvisited | screens/playing_render.py:153-154 | Visiting a new grid cell shrinks the unvisited grid. |
| PlayingRenderModel.ExpandNext | screens/playing_render.py:148-156 | One pop of the queue keeps the search invariant, and either shrinks the unvisited grid or the queue, so the loop ends. |
| PlayingRenderModel.GrowCluster | screens/playing_render.py:144-156 | The search from a new HIT cell returns its whole 4-connected group of HIT cells: new, HIT, connected, none twice, closed. The visited set grows by exactly those cells. |
| PlayingRenderModel.SunkSpritesStandard | screens/playing_render.py:137-183 | The clusters found are the 4-connected components of HIT cells. Every HIT cell lies in exactly one of them. They come in row-major scan order (ScanOrder): each starts at its first cell in that order, after the previous cluster's start. The sprites shown are exactly the clusters' decisions, in that order. |
| PlayingRenderModel.ScanOrderSorted | screens/playing_render.py:139-144 | In scan order every cluster starts at its row-major first cell, and the starts strictly increase row-major. |
| PlayingRenderModel.ScanCell | screens/playing_render.py:139-183 | One cell of the scan: an unvisited HIT cell starts a search, and the pass's invariant moves one cell on. |
| PlayingRenderModel.ScanAdd | screens/playing_render.py:144-183 | A new cluster grown from the scan position keeps the pass's invariant at the next cell. |
| PlayingRenderModel.ScanStep | screens/playing_render.py:139-144 | A cluster grown from the scan position out of unvisited cells starts at its first cell and after every earlier start. |
| PlayingRenderModel.ScanCover | screens/playing_render.py:139-144 | Once the current cell's cluster is visited, every HIT cell before the next position is visited. |
| PlayingRenderModel.AddCluster | screens/playing_render.py:139-183 | A new cluster outside the old ones keeps the components, their cells, their disjointness and their sprites in step. |
| PlayingModel.NewNeighboursMembers | screens/playing_logic.py:229-237 | A cell is appended exactly when it is a neighbour in one of the given directions, on the grid, EMPTY and not queued before. |
| PlayingModel.NotYetAdded | screens/playing_logic.py:232-237 | With distinct directions, the last direction's neighbour was not appended by an earlier one. |
| PlayingModel.NewNeighboursNoDup | screens/playing_logic.py:232-237 | The appended cells are distinct. |
| PlayingModel.EnqueueDirsSplit | screens/playing_logic.py:232-237 | The loop only appends to the queue, and what it appends is NewNeighbours. |
| PlayingModel.EnqueuedSpec | screens/playing_logic.py:229-237 | _enqueue_adjacent keeps the old queue as a prefix. It appends, up/down/left/right, exactly the in-grid EMPTY neighbours not already queued, so SHIP neighbours are never queued. An in-grid duplicate-free queue stays so. |
| PlayingModel.FireSpec | screens/playing_logic.py:177-191 | A shot keeps the invariant (n-by-n board, ship counter equal to the SHIP count, sound queue) and resolves exactly its cell. At an untried cell it uses up one untried cell. The AI wins exactly when the shot hit the last SHIP cell; otherwise winner and scene are unchanged. |
| PlayingModel.ApplyShotSpec | screens/playing_logic.py:215-227 | _apply_shot_result with the cell's real outcome keeps the invariant and changes exactly that cell: SHIP to HIT with one ship less, otherwise MISS. |
| PlayingModel.ResolveAll | screens/playing_logic.py:172-337 | The board after a sequence of shots keeps its shape. |
| PlayingModel.FreshSnoc | screens/playing_logic.py:178 | A shot at a cell untried after earlier fresh shots extends the fresh sequence. |
| PlayingModel.FreshAppend | screens/playing_logic.py:297-337 | Two fresh sequences, the second starting from where the first left the board, make one. |
| PlayingModel.ShotsTried | screens/playing_logic.py:339-343 | After fresh shots, every fired cell is tried, and a tried cell stays tried. |
| PlayingModel.FreshShotsSpec | screens/playing_logic.py:172-337 | No double fire: a fresh sequence never repeats a cell, and every cell was on the board and untried before the turn. |
| PlayingModel.FreshShotsCount | screens/playing_logic.py:172-337 | Each fresh shot uses up exactly one untried cell. |
| PlayingModel.FireStep | screens/playing_logic.py:177-191 | A shot at a cell still untried extends a fresh sequence and uses up one untried cell. |
| PlayingModel.UntriedWitness | screens/playing_logic.py:175-178 | A positive untried count names an untried in-grid cell, so the random retry loop can stop. |
| PlayingModel.FirstUntried | screens/playing_logic.py:196-199 | The position of the first untried queue entry: every earlier entry is tried. |
| PlayingModel.FirstUntriedAt | screens/playing_logic.py:196-199 | The first untried entry is the one after a run of tried entries. |
| PlayingModel.FirstValidProbe | screens/playing_logic.py:272-276 | The first direction whose target from the origin is valid; every earlier direction's target is invalid. |
| PlayingModel.PlayerShotSpec | screens/playing_logic.py:72-93 | A single-player shot keeps the invariant. The attack cell shows HIT exactly when the computer's cell held SHIP, and the computer's cell becomes HIT only then. The player wins, with no AI turn scheduled, exactly when no SHIP cell is left; otherwise the AI turn is scheduled at `now`. |
| PlayingModel.ClickedCell | screens/playing_logic.py:43-52 | A click acts exactly when it is a button-1 press inside the enemy grid, and then on an in-grid cell. |
| PlayingModel.AnswerPeerParts | screens/playing_logic.py:148-168 | Answering a peer shot, stated field by field: one shot as the AI would fire it, one answer, and the turn. |
| PlayingModel.NetTurnInv | screens/playing_logic.py:116-168 | A networked turn keeps the invariant and consumes at most the oldest queued message. |
| PlayingModel.NetShotProtocol | screens/playing_logic.py:125-145 | A pending shot not yet awaited is sent and then awaited; while awaited it is not sent again. Only a result message settles it, marking the attack cell HIT or MISS as reported (a missing "hit" reads as a miss). The player has won afterwards exactly when a reported hit took the counter to zero or they had already won. |
| PlayingModel.NetAnswerProtocol | screens/playing_logic.py:147-168 | With nothing pending, a peer shot is fired at the player's board like an AI shot that is not counted as an AI hit and queues no neighbours. It is answered with whether it hit, and hands the turn over unless it sank the last ship. Any other message, "disconnect" included, is dropped. |
| PlayingModel.PlayingLogic.constructor | screens/playing_logic.py:10-13 | The logic starts from reset. |
| PlayingModel.PlayingLogic.Reset | screens/playing_logic.py:15-37 | Search mode with no memory. It is my turn exactly when networked as the host. Nothing awaited and no pending shot. |
| PlayingModel.PlayingLogic.EnqueueAdjacent | screens/playing_logic.py:229-237 | The loop over the four directions leaves the queue as Enqueued specifies (see EnqueuedSpec). |
| PlayingModel.PlayingLogic.ApplyShotResult | screens/playing_logic.py:215-227 | The state changes as ApplyShot specifies (see ApplyShotSpec). |
| PlayingModel.PlayingLogic.CheckAiWin | screens/playing_logic.py:189-191 | A hit that leaves no ship makes the AI the winner and shows the statistics. |
| PlayingModel.PlayingLogic.TakeShot | screens/playing_logic.py:180-191 | One counted, time-stamped shot; the state changes as Fire specifies, and the hit is whether the cell held SHIP. |
| PlayingModel.PlayingLogic.PickUntried | screens/playing_logic.py:175-178 | The random pick lands on an in-grid untried cell. |
| PlayingModel.PlayingLogic.AiShotRandom | screens/playing_logic.py:172-192 | One shot at an untried cell, as Fire specifies; the invariant holds and the shot is fresh. |
| PlayingModel.PlayingLogic.AiShotFromTargets | screens/playing_logic.py:194-213 | Tried entries at the front are dropped, and exactly one seeded shot goes to the first untried entry. Only when the queue runs out is it one seeded random shot instead. The invariant holds and the shot is fresh. |
| PlayingModel.PlayingLogic.ShootTarget | screens/playing_logic.py:199-212 | One seeded shot at an untried queue entry, as Fire specifies. |
| PlayingModel.PlayingLogic.EnterDestroyMode | screens/playing_logic.py:259-263 | Destroy mode around the origin, all four directions to probe, none locked. |
| PlayingModel.PlayingLogic.SearchShot | screens/playing_logic.py:244-267 | One seeded shot at an untried cell. A hit switches to destroy mode around it, with the directions up, down, left, right and none locked; a miss keeps the memory. |
| PlayingModel.PlayingLogic.ProbeShot | screens/playing_logic.py:270-295 | Directions are popped front first and invalid targets skipped. At most one unseeded probe is fired, at the first valid target, locking its direction on a hit. When the directions run out: back to search and one seeded random shot. |
| PlayingModel.PlayingLogic.ProbeAt | screens/playing_logic.py:276-291 | One unseeded probe from the origin, locking the direction on a hit. |
| PlayingModel.PlayingLogic.GiveUpDestroy | screens/playing_logic.py:335-337 | Back to search with no memory, then one seeded random shot. |
| PlayingModel.PlayingLogic.PopValidProbe | screens/playing_logic.py:272-276 | Directions are popped up to and including the first with a valid target, which is returned; when none is valid the list is emptied. |
| PlayingModel.PlayingLogic.ReverseShot | screens/playing_logic.py:317-333 | The direction is reversed and the origin becomes the last hit again. One unseeded shot goes beyond the origin when that cell is valid. |
| PlayingModel.PlayingLogic.FollowShot | screens/playing_logic.py:297-337 | The shot beyond the last hit goes along the locked direction. A hit stays in destroy mode. After a miss (with the reversal) or an invalid target, back to search and one seeded random shot. One to three shots, all fresh. It requires only the untried cells its branch uses (FollowNeeded). |
| PlayingModel.PlayingLogic.FollowStep | screens/playing_logic.py:297-333 | The follow shot, and after a miss the reversal; it reports whether the follow shot hit. |
| PlayingModel.PlayingLogic.AiAdvancedShot | screens/playing_logic.py:239-337 | The mode and the locked direction pick the branch (HardOutcome). Search mode fires one seeded random shot and enters destroy mode around a hit. Destroy mode with no locked direction probes the first direction whose target is valid, or goes back to search with a seeded random shot. With a locked direction it follows as FollowShot does. Each branch fixes the new board, counters, queue and memory. The shots are fresh and the invariant holds. |
| PlayingModel.PlayingLogic.HandleAiTurn | screens/playing_logic.py:95-114 | Nothing changes until an AI turn is pending and 1000 ms have passed; untried cells are required only then. When the turn acts, the difficulty's strategy runs as AiOutcome states. All shots are fresh and the turn is no longer pending. |
| PlayingModel.PlayingLogic.AiShot | screens/playing_logic.py:103-112 | Easy fires one unseeded random shot. Medium fires as MediumShot does. Both leave the Hard memory alone. Anything else plays Hard, with the outcome HardOutcome gives for the mode. |
| PlayingModel.PlayingLogic.MediumShot | screens/playing_logic.py:106-110 | With a non-empty queue, the tried entries at its front are dropped and one seeded shot goes to the first untried entry. If every entry is tried, the queue is emptied and one seeded random shot is fired. With an empty queue, one seeded random shot. The shot is fresh and the invariant holds. |
| PlayingModel.PlayingLogic.HandleEvent | screens/playing_logic.py:39-93 | Only a button-1 press in the enemy grid acts. Networked, it queues a shot at an EMPTY attack cell on the player's turn (counted and stamped) and hands the turn over. Single-player, it fires at an EMPTY attack cell when no AI turn is pending, as PlayerShot specifies. |
| PlayingModel.PlayingLogic.NetworkClick | screens/playing_logic.py:55-69 | On the player's turn, at an EMPTY attack cell: counted, stamped, queued, and the turn handed over. Otherwise nothing changes. |
| PlayingModel.PlayingLogic.PlayerClick | screens/playing_logic.py:72-93 | With no AI turn pending and an EMPTY attack cell, the shot is as PlayerShot specifies; otherwise nothing changes. |
| PlayingModel.PlayingLogic.ResolvePlayerShot | screens/playing_logic.py:74-83 | Counted and stamped. A SHIP cell becomes HIT on both boards with one computer ship less; otherwise MISS on the attack board. |
| PlayingModel.PlayingLogic.FinishPlayerShot | screens/playing_logic.py:85-93 | The player wins when no computer ship is left; otherwise the AI turn is scheduled. |
| PlayingModel.PlayingLogic.HandleNetworkTurn | screens/playing_logic.py:116-168 | Without a link nothing changes. With one, the state moves as NetTurn specifies and keeps the networked invariant. |
| PlayingModel.PlayingLogic.SendPendingShot | screens/playing_logic.py:127-131 | The pending shot goes out and the engine awaits its result. |
| PlayingModel.PlayingLogic.AwaitResult | screens/playing_logic.py:133-145 | One message is consumed; only a result settles the shot. |
| PlayingModel.PlayingLogic.SettleShot | screens/playing_logic.py:135-144 | The reported result is recorded and the shot is no longer pending or awaited. |
| PlayingModel.PlayingLogic.ApplyNetworkResult | screens/playing_logic.py:136-142 | The attack cell shows the reported result. A hit is counted and takes a computer ship off, and at zero the player wins. |
| PlayingModel.PlayingLogic.AnswerPeerShot | screens/playing_logic.py:147-168 | With nothing pending, one message is consumed as AnswerPeer specifies. |
| PlayingModel.PlayingLogic.ReplyToShot | screens/playing_logic.py:152-168 | The peer's shot is resolved and answered with whether it hit. The turn passes to the player unless it sank the last ship. |
| PlayingModel.PlayingLogic.PeerShot | screens/playing_logic.py:153-158 | The peer's shot lands like an AI shot that is neither counted as an AI hit nor queues neighbours. |
| PlayingModel.PlayingLogic.ResetDestroyMode | screens/playing_logic.py:345-350 | Search mode with no origin, no directions and no locked direction. |

## Left out

- Drawing, images, fonts, sounds, timers shown on screen, explosion and splash fades, and Tk widgets: these are pygame and Tk calls. The playing screen's sunk-ship logic is modelled as the decisions (`Sprite` values), not the blits.
- The host side of the lobby (`start_host`, `_wait_for_client`, `_get_local_ip`): sockets, a thread and polling.
- The sockets, threads and JSON framing of network.py. The link is a `Channel` with an inbox and an outbox, and a failed connection is a null channel passed to `StartJoin`.
- LobbyLogicModel.ParseAddress: no port range check is made, as in the source; ports above 65535 are accepted.
- Randomness: `place_ship_randomly` consumes an injected finite sequence of draws. PlaceShipRandomly's `None` outcome stands for the draws running out, where the source keeps drawing forever. GameState's constructor and resets require draws that place the whole fleet.
- Randomness in the AI: `randint` retries are a nondeterministic choice of an untried in-grid cell. A retry that lands on a tried cell changes nothing in the source, so the model omits it.
- PlayingModel.PlayingLogic.HandleAiTurn: when the turn acts, it requires the untried cells the strategy's random draw loops need to end (UntriedNeeded). That is one, or for Hard's follow step the two or three FollowNeeded counts after a miss. Without them the source would loop forever. Nothing is required when the turn does not act.
- PlayingModel.PlayingLogic.AiShot: the same untried-cell precondition as HandleAiTurn, for the acting case.
- PlayingModel.PlayingLogic.HandleNetworkTurn: the peer's shot coordinates are required to lie on the grid (NetInv). The source indexes the board with whatever arrives, so a negative index wraps around to the other end of the row and a large one raises IndexError.
- The clock (`pygame.time.get_ticks`) is the `now` parameter.
- Aliasing: the source stores the same row lists in `player_board` and `pass_play_boards[0]`, and the same ship objects in `state.placed_ships`. The model copies board values, so a later write through one alias is not seen through the other.
- fire_at and the board helpers work on board values and return the new board, where the source writes the list in place; only the state's boards are fields.
- Character classes are approximations of Python's Unicode rules:
  - `str.strip` whitespace is the ASCII whitespace set plus the Unicode space separators the model lists;
  - `str.isdigit` is ASCII digits;
  - `str.isprintable` is Latin-1 printable characters.
- Playing a networked match: a "disconnect" message is consumed and ignored, as the code does; the peer leaving is not surfaced.
- PlacingModel.PlacingLogic.DropActive: `snap_back` calls `reset_position`, which `DraggableShip` does not define. The AttributeError is modelled as the `crashed` outcome, with no further state change.
- Grids above 12 cells: the fleet then holds a 6, which has no sprite, so setting up the placement screen raises ValueError. It is modelled as `Create`/`SetupShips` failing (`SetupNeedsSmallGrid`).
- DraggableShipModel.DraggableShip.Rotate: the source turns the horizontal base image on every rotation. So after a second rotation the orientation reads horizontal while the sprite stays one cell wide; the model keeps this.
- PlacingModel.PlacingLogic.OnReadyPressed: `ready_to_start` is not checked, as in the source; the Ready button's drawing decides when it is offered.
- The placing screen's grid offsets are taken from the layout when the screen is built and are not recomputed when the grid size changes later, as in the source.
- PlacingModel.PlacingLogic.HandleEvent: requires the player board to be GRID_SIZE by GRID_SIZE. In the source, `apply_grid_size` (screens/settings_logic.py:34-37) changes GRID_SIZE without rebuilding the boards, and the menu enters placement without `reset_all` (screens/menu_logic.py:11-12). So the first match after a size change runs on the boards built for the old size. A larger grid then lets a drop pass the range test and index past the board (IndexError); a smaller one confines play to the board's top-left corner while the computer's fleet may lie outside it. The model does not cover that stale-board state.
- PlayingModel.PlayingLogic.HandleEvent: requires the attack board, and in single player the computer board, to be GRID_SIZE by GRID_SIZE. After a grid-size change the source clicks on the old boards, as described for the placing screen.
- PlayingModel.PlayingLogic.HandleAiTurn: requires, through `Valid(n)`, the player board to be n by n for the grid the AI draws from. After a grid-size change the source draws from the new range on the old board.
- Every board-writing method these call inherits the same square-board requirement: TryPlaceOnGrid, PlaceActive, DropActive, NetworkClick, PlayerClick, AiShot and the Hard strategy's shots, and HandleNetworkTurn. None of them models a board whose size differs from GRID_SIZE.
- `pass_play_placed_ships` on the placing screen is set and never read; it is not modelled.
- The pass-and-play lists (`pass_play_boards`, `pass_play_placed_ships`, `pass_play_attacks`) are created outside the modelled files. OnReadyPressed requires them long enough. Stage 1 to 2 is advanced by the hand-over modal, which is not modelled.
- GameState attributes that other modules add (the network link, `is_host`, `pending_shot`, shot time lists, pass-and-play fields, sync flags, `winner`) are never set in `__init__`; the model declares them and leaves their initial values unspecified.
- The initial difficulty comes from a `Config` attribute that core/config.py does not define; it is a constructor parameter.
- `reset_callback` is modelled only as PlacingLogic's reset, in `PlacingModel.PlacingLogic.RestartMatch`.
- `pending_shot` is deleted and checked with `hasattr` in the source; the model uses an `Option`.
- Medium's neighbour queue, as written, takes only EMPTY neighbours, so a SHIP neighbour of a hit is never queued. The model follows the code.
- The Hard strategy's follow step: after a miss and its reversal shot, the code always falls through to the reset and a random shot, even when the reversal hit or won. The model follows the code.
- The sprites' image scaling to the cell size, and `main_area_position`/`preview_area_position`, are constants here.
