# Battleship game engine, modelled in Dafny

This project models the rules engine of a browser Battleship game. The
game comes in two modes, and the model covers both.

- **Single-player rules** (`GameLogic`). These cover:
  - the empty 10 x 10 board;
  - the two-pass validator for a static ship layout (per-ship checks, then overlaps);
  - building a fleet from a valid layout;
  - sinking and winning;
  - resolving one shot with `attackCell`.
- **The match against the computer**:
  - the ship templates and manual placement, with the placement check, removal and rotation (`Placement`);
  - automatic placement by random draws, then by a systematic row-major scan (`Placement`);
  - one shot on a player's board (`Combat`), and the end-of-match check;
  - the computer opponent (`ComputerPlayer`): its difficulty settings, hunt queue, checkerboard strategy, random target choice and state update;
  - cell keys (`CellKeys`).
- **The game hook** that drives a match (`TwoPlayerMatch`). It becomes the class `TwoPlayerGame`:
  - its fields are the phase, the turn, both boards, both attack grids, the counters, the message, the computer's state and the difficulty;
  - it has one method per action the interface offers.

## How the model is built

- **Board cells and fleets are values:** `Types`.
- **A player's board is a class.** `Combat.PlayerBoard` holds the fleet, because the engine updates it in place.
- **Attack grids are `array2<Cell>`.** The engine writes them in place.
- **Loops are methods with invariants.** The validator passes, the placement scan, the target collection and the attack search each become a `method`. Each one is proved equal to a function that specifies it, and the lemmas are proved about those functions.
- **Random draws are parameters.** `Math.random()` becomes the draws `draws: nat -> Draw` (a start cell and an orientation) and `AIChoice(roll, pick)`:
  - `roll % 100 < hitProbabilityPercent` decides an optimal move;
  - `pick` indexes the candidate list.
- **Timers become sequencing.** The hook's `setTimeout` delays run their continuations at once.

The class keeps an invariant, `TwoPlayerGame.Valid`. It says:
- both fleets are laid out: placed ships are on the board, apart, and named distinctly;
- the computer's queue is on the board and free of repeats;
- hits never exceed shots;
- a finished match has a winner, and a recorded winner has sunk the other fleet.

Every action preserves it. The computer's turn ends: every move that lets the computer move again marks a cell that was not attacked before.

## Model

| member | source | states |
|---|---|---|
| GameLogic.CreateEmptyBoard | src/utils/gameLogic.ts:4-16 | a 10 x 10 grid; every cell is unattacked, unhit and names no ship |
| GameLogic.CheckShip | src/utils/gameLogic.ts:36-82 | the first pass's callback for one ship reports exactly `ShipErrors`. That is a missing name, then either "no positions" or, position by position and in order, a non-pair or an out-of-bounds pair |
| GameLogic.CheckShapes | src/utils/gameLogic.ts:36-82 | every ship is checked in layout order, whatever earlier ships reported. The errors are `ShapeErrors(layout)` |
| GameLogic.RecordPositions | src/utils/gameLogic.ts:84-103 | the second pass's callback for one ship. The seen set gains the ship's [row, col] pairs. The errors extend the overlap report of everything seen so far, as `OverlapErrors` of the longer cell list |
| GameLogic.CheckOverlaps | src/utils/gameLogic.ts:84-103 | one seen set shared by the whole layout. The errors are `OverlapErrors(Pairs(layout))` |
| GameLogic.ValidateShipLayout | src/utils/gameLogic.ts:18-106 | the errors are exactly both passes' reports, in order. An empty layout gives the single "cannot be empty" error. The layout is valid iff nothing was reported |
| GameLogic.OverlapErrorsMember | src/utils/gameLogic.ts:84-103 | a cell is reported as overlapping iff it occurs at two different places in the cell list |
| GameLogic.OverlapErrorsEmpty | src/utils/gameLogic.ts:84-103 | the second pass reports nothing iff no cell occurs twice |
| GameLogic.ShapeErrorsEmpty | src/utils/gameLogic.ts:36-82 | the first pass reports nothing iff every entry has a name, has positions, and has only in-bounds [row, col] pairs |
| GameLogic.ValidLayoutCharacterization | src/utils/gameLogic.ts:18-106 | a layout is valid iff it is non-empty, every entry passes the per-ship checks, and no cell occurs twice in the whole layout |
| GameLogic.OverlappingReported | src/utils/gameLogic.ts:84-103 | for any cell, the validator reports an overlap iff the layout is non-empty and the cell occurs twice among its pairs |
| GameLogic.OutOfBoundsReported | src/utils/gameLogic.ts:56-81 | an out-of-bounds error naming a ship, an index and a cell is reported iff some entry of that name has that off-board pair at that index |
| GameLogic.NotAPairReported | src/utils/gameLogic.ts:56-81 | a "not a valid [row, col] array" error for a ship and an index is reported iff some entry of that name has a position of another length at that index |
| GameLogic.PairsMember | src/utils/gameLogic.ts:84-103 | exactly the positions written as [row, col] pairs reach the overlap pass, each as its cell |
| GameLogic.InitializeShips | src/utils/gameLogic.ts:108-122 | an invalid layout gives no ships. A valid one gives one ship per entry, in order, with the same name and cells, all flags clear and afloat |
| GameLogic.InitializedFleetIsDisjoint | src/utils/gameLogic.ts:18-122 | the fleet built from a valid layout lies on the board, and no two of its cells coincide, within a ship or across ships |
| GameLogic.CheckShipSunk | src/utils/gameLogic.ts:289-291 | a ship is sunk iff every hit flag is set |
| GameLogic.CheckGameWon | src/utils/gameLogic.ts:293-295 | the game is won iff every ship is sunk; an empty fleet counts as won |
| GameLogic.AttackCell | src/utils/gameLogic.ts:130-278 | the checks come in order: a finished game, then off-board coordinates, then a duplicate shot. Each of these leaves the state unchanged. The shot is a hit or a miss iff it is accepted. An accepted shot counts one shot, and one hit iff some ship covers the cell. The status becomes won iff every ship is sunk, and the victory text is shown iff it is won |
| GameLogic.AttackChangesOnlyTarget | src/utils/gameLogic.ts:195-242 | an accepted shot changes only the target cell, which becomes attacked. A miss changes nothing else about it; a hit marks it hit and names the struck ship |
| GameLogic.AttackStrikesShip | src/utils/gameLogic.ts:224-236 | a miss leaves the fleet alone. On a hit, the struck ship keeps its name and cells, its flags gain exactly the one at the cell's index, and `isSunk` is recomputed from the flags. Every ship of the same name takes that same hit, and ships with other names are unchanged |
| GameLogic.AttackMessages | src/utils/gameLogic.ts:247-262 | winning shows the victory text. Otherwise a miss gives the miss text, and a hit gives the sunk text with the capitalised name iff the struck ship went down, else the plain hit text |
| GameLogic.NewGameWellFormed | src/utils/gameLogic.ts:108-122 | a new game on a layout with distinct names is well formed: a full board, one flag per cell, flags and `isSunk` agreeing, no hits |
| GameLogic.StrikeKeepsFlagsAgree | src/utils/gameLogic.ts:224-236 | striking a ship at one of its cells keeps one flag per cell, keeps `isSunk` agreeing with the flags, and keeps the names distinct |
| GameLogic.AttackPreservesWellFormed | src/utils/gameLogic.ts:130-278 | every shot, accepted or not, keeps the state well formed: hits never exceed shots, and "won" only when every ship is sunk |
| Types.FindIndex | src/utils/twoPlayerGameLogic.ts:378-380 | `findIndex` for a cell, and `indexOf` for a size: -1 iff the element is absent; otherwise the first index holding it |
| Types.FirstStrike | src/utils/twoPlayerGameLogic.ts:377-386 | the search loop: none iff no ship covers the cell. Otherwise it gives the first ship covering the cell and the first index of the cell in it |
| Types.MarkHit | src/utils/twoPlayerGameLogic.ts:390 | the flag at the index is set and the others are kept; writing past the end extends the array |
| Combat.PlayerBoard.constructor | src/utils/twoPlayerGameLogic.ts:13-16 | a board with no ships and an empty grid |
| Combat.AllSunk | src/utils/twoPlayerGameLogic.ts:404 | true iff every ship is sunk |
| Combat.ResolveAttack | src/utils/twoPlayerGameLogic.ts:354-423 | a repeated shot changes nothing and reports "Already attacked". A fresh shot marks the cell. It hits iff some ship covers the cell, and the cell records the hit. A miss leaves the fleet alone and never wins. A hit wins iff every ship is then sunk. Ships change only in flags, and no ship is refloated |
| Combat.HitStrikesFirstShip | src/utils/twoPlayerGameLogic.ts:377-413 | on a fresh hit, the first ship covering the cell takes the hit at the first index of the cell, and no other ship changes. It is reported sunk iff all its flags are set, and the message is then its sunk text, else "Hit!" |
| Combat.AttackKeepsSunkTracksHits | src/utils/twoPlayerGameLogic.ts:390-401 | a shot keeps each ship's sunk flag equal to "all flags set" |
| Combat.AttackPosition | src/utils/twoPlayerGameLogic.ts:354-423 | the fleet and the target grid cell are updated in place as `ResolveAttack` says, and no other grid cell changes |
| Combat.CheckGameOver | src/utils/twoPlayerGameLogic.ts:563-577 | the computer wins iff the player's fleet is all sunk, and this is checked first. Otherwise the player wins iff the computer's fleet is all sunk. The game is over iff there is a winner |
| Placement.CreateShipTemplate | src/utils/twoPlayerGameLogic.ts:29-41 | an unplaced ship with the name, size and orientation given, no cells, `size` clear flags, afloat |
| Placement.FleetTemplates | src/hooks/useTwoPlayerGame.ts:32-34 | one horizontal template per fleet entry, in table order |
| Placement.FleetTemplatesDistinct | src/hooks/useTwoPlayerGame.ts:31-34 | the templates have distinct names, and none is placed |
| Placement.RunShape | src/utils/twoPlayerGameLogic.ts:252-268 | the generated cells are distinct, start at the anchor, and step along the column or the row |
| Placement.RunOnBoard | src/utils/twoPlayerGameLogic.ts:62-70 | a run lies on the board iff its first and last cells do; this is the bounds check of `canPlaceShip` |
| Placement.GenerateShipPositions | src/utils/twoPlayerGameLogic.ts:252-268 | the loop builds exactly the run of `size` cells from the start |
| Placement.Conflicts | src/utils/twoPlayerGameLogic.ts:73-94 | the conflicting cells are exactly the run's cells covered by a placed ship, in run order |
| Placement.CheckPlacement | src/utils/twoPlayerGameLogic.ts:43-100 | placement is allowed iff the run is on the board and no placed ship covers a cell of it. The bounds error comes first. Otherwise the conflicts are listed. An allowed placement carries no message and no conflicts |
| Placement.CanPlaceShip | src/utils/twoPlayerGameLogic.ts:43-100 | the loops compute exactly `CheckPlacement` |
| Placement.PlaceShip | src/utils/twoPlayerGameLogic.ts:102-130 | every ship of that name is put on the board from the start, with its run and clear flags; the others are untouched |
| Placement.RemoveShipFromBoard | src/utils/twoPlayerGameLogic.ts:132-147 | every ship of that name leaves the board with no cells and clear flags; the others are untouched |
| Placement.RemoveUndoesPlace | src/utils/twoPlayerGameLogic.ts:102-147 | removing a ship that was just placed, unplaced before, gives back the fleet as it was |
| Placement.AllShipsPlaced | src/utils/twoPlayerGameLogic.ts:149-151 | true iff every ship is placed |
| Placement.Others | src/utils/twoPlayerGameLogic.ts:285 | exactly the ships not of that name |
| Placement.RotateShip | src/utils/twoPlayerGameLogic.ts:270-301 | a placed ship of that name turns about its anchor iff the turned run fits among the other ships, and keeps its hit flags. Everything else is unchanged |
| Placement.FitsApart | src/utils/twoPlayerGameLogic.ts:43-100 | a run that passes the check lies on the board and shares no cell with any placed ship |
| Placement.PlaceKeepsLaidOut | src/hooks/useTwoPlayerGame.ts:59-88 | placing a ship where the check passed keeps every placed ship on the board and apart |
| Placement.RemoveKeepsLaidOut | src/utils/twoPlayerGameLogic.ts:132-147 | removal keeps every placed ship on the board and apart |
| Placement.RotateKeepsLaidOut | src/utils/twoPlayerGameLogic.ts:270-301 | rotation keeps every placed ship on the board and apart |
| Placement.RotateTwice | src/utils/twoPlayerGameLogic.ts:270-301 | rotating a straight ship twice restores the fleet, when its own place fits among the others |
| Placement.ScanFrom | src/utils/twoPlayerGameLogic.ts:213-243 | a slot the scan finds is on the board and accepted by the check |
| Placement.FirstSlotFits | src/utils/twoPlayerGameLogic.ts:213-243 | the slot the whole scan finds passes the placement check against the fleet |
| Placement.ScanFromNone | src/utils/twoPlayerGameLogic.ts:213-243 | the scan from a slot finds nothing iff no slot from there on fits |
| Placement.FirstSlotNoneIffNoSlot | src/utils/twoPlayerGameLogic.ts:213-243 | the scan fails iff no cell and orientation on the board fits |
| Placement.TrySlot | src/utils/twoPlayerGameLogic.ts:220-237 | a slot places the ship iff it passes the check, and then exactly that ship is replaced by its placed version |
| Placement.TryCell | src/utils/twoPlayerGameLogic.ts:219-238 | at one cell, horizontal is tried before vertical; the ship is placed iff either fits |
| Placement.ScanCell | src/utils/twoPlayerGameLogic.ts:219-238 | the scan at one cell, in terms of `ScanFrom`: it stops at the first fitting orientation, or moves on to the next cell |
| Placement.TryRow | src/utils/twoPlayerGameLogic.ts:218-239 | the columns of one row, left to right, place the ship at the first fitting slot of the row, or leave the fleet alone |
| Placement.TryRows | src/utils/twoPlayerGameLogic.ts:217-242 | the rows, top to bottom, place the ship at the scan's first fitting slot, or leave the fleet alone |
| Placement.SystematicPlaceShip | src/utils/twoPlayerGameLogic.ts:213-243 | the ship is placed at the first fitting slot in row-major order, horizontal first. It reports failure, with the fleet unchanged, iff no slot fits |
| Placement.NoSlotGrows | src/utils/twoPlayerGameLogic.ts:165-211 | covering more cells can only rule slots out: a ship with no slot keeps none |
| Placement.PlacingCoversMore | src/utils/twoPlayerGameLogic.ts:165-211 | putting an unplaced ship on the board only adds covered cells |
| Placement.FirstFit | src/utils/twoPlayerGameLogic.ts:178-201 | the index of the first draw in the window that passes the check, or the window's length when none does: every draw before it fails |
| Placement.FirstFitIs | src/utils/twoPlayerGameLogic.ts:178-201 | an index whose draw passes the check, after draws that all fail, is the first fit; so is the length when every draw fails |
| Placement.PlaceOneFits | src/utils/twoPlayerGameLogic.ts:178-207 | the ship placed for one index lies at a slot that passes the check, or the fleet is unchanged and no slot fits |
| Placement.TryDraws | src/utils/twoPlayerGameLogic.ts:178-201 | the loop of draws stops at the first of the `MaxAttempts` draws from `next` that passes the check and places the ship there, one draw used per attempt; when none passes, all `MaxAttempts` draws are used and the fleet is unchanged |
| Placement.AutoPlaceOne | src/utils/twoPlayerGameLogic.ts:178-207 | for one ship, the first of the `MaxAttempts` draws from `next` that passes the check places it; when none does, the scan's first slot places it; when there is none either, the fleet is unchanged. The next draw index is returned. So the ship lies at a slot that passes the check, or no slot fits |
| Placement.AutoPlaceShips | src/utils/twoPlayerGameLogic.ts:165-211 | the fleet is `AutoPlacement` of the input and the draws: the unplaced ships in fleet order, each by draws from where the previous one stopped. Ships already placed never move. Each unplaced ship ends up either placed on the board and apart from every other placed ship, or unplaced with no slot left for it |
| Placement.AutoPlacementPlaces | src/utils/twoPlayerGameLogic.ts:165-211 | the fleet automatic placement builds has the same length, keeps placed ships where they were, and puts each unplaced ship apart from the others or leaves it unplaced with no slot left |
| Placement.AutoPlaceFromPlaces | src/utils/twoPlayerGameLogic.ts:167-208 | the same from ship `i` on, given that the ships before `i` already keep the promise |
| Placement.PlaceOneKeepsPlaced | src/utils/twoPlayerGameLogic.ts:167-208 | placing one unplaced ship keeps the promise for the ships before it and establishes it for that ship |
| Placement.AutoPlaceStep | src/utils/twoPlayerGameLogic.ts:190-199 | placing ship `i` where the check passed keeps the promise for every earlier ship and establishes it for ship `i` |
| Placement.AutoPlaceRemainingShips | src/utils/twoPlayerGameLogic.ts:245-250 | the fleet is `AutoPlacement` of the input and the draws. A fleet already on the board comes back as it is; otherwise it is placed as `AutoPlaceShips` promises |
| Placement.PlacedFleetStays | src/utils/twoPlayerGameLogic.ts:245-250 | automatic placement leaves a fleet whose remaining ships are all placed as it is, drawing nothing |
| Placement.AutoPlacedLaidOut | src/utils/twoPlayerGameLogic.ts:165-211 | automatic placement keeps a laid-out fleet laid out |
| ComputerPlayer.InitializeAI | src/utils/twoPlayerGameLogic.ts:303-337 | an empty queue, no hunt, the fleet's sizes 5, 4, 3, 3, 2, and the settings of the difficulty. Only easy plays at random and ignores the queue. The odds are 30/70/90 % and the delays 2000/1500/1000 ms |
| ComputerPlayer.HarderIsSharper | src/utils/twoPlayerGameLogic.ts:303-337 | a harder setting is more often optimal and waits less between moves |
| ComputerPlayer.GetAdjacentPositions | src/utils/twoPlayerGameLogic.ts:539-561 | exactly the on-board cells one step up, down, left or right, in that order and without repeats |
| ComputerPlayer.Enqueue | src/utils/twoPlayerGameLogic.ts:513-519 | the old queue stays in front. The result holds exactly the old cells and the new ones, and a queue without repeats keeps none |
| ComputerPlayer.EnqueueAppendsNew | src/utils/twoPlayerGameLogic.ts:513-519 | every cell appended was not in the queue before |
| ComputerPlayer.EnqueueAppendsInOrder | src/utils/twoPlayerGameLogic.ts:513-519 | the cells appended come in the order they have among the neighbours |
| ComputerPlayer.RemoveFirst | src/utils/twoPlayerGameLogic.ts:528-532 | one occurrence of the size leaves the list, if there is one; otherwise the list is unchanged |
| ComputerPlayer.UpdateAIState | src/utils/twoPlayerGameLogic.ts:500-537 | a hit that sinks nothing starts a hunt from the cell and queues its new neighbours. A sinking ends the hunt, empties the queue and drops one occurrence of the sunk ship's size. Anything else changes nothing. The settings never change, and a queue that is on the board and free of repeats stays so |
| ComputerPlayer.Targets | src/utils/twoPlayerGameLogic.ts:485-498 | the candidate cells are exactly the unattacked ones (with `parityOnly`, those with even row + col), in row-major order |
| ComputerPlayer.CollectTargets | src/utils/twoPlayerGameLogic.ts:486-494 | the nested loops collect exactly `Targets` of the grid |
| ComputerPlayer.Pick | src/utils/twoPlayerGameLogic.ts:496-497 | the pick is one of the candidates |
| ComputerPlayer.StrategicTarget | src/utils/twoPlayerGameLogic.ts:459-483 | only a hard opponent has a strategic target, an unattacked cell with even row + col. There is none iff the opponent is not hard or no such cell is left |
| ComputerPlayer.GetStrategicTarget | src/utils/twoPlayerGameLogic.ts:459-483 | the method computes `StrategicTarget` |
| ComputerPlayer.FindRandomValidTarget | src/utils/twoPlayerGameLogic.ts:485-498 | the pick among the unattacked cells; it is on the board and not attacked |
| ComputerPlayer.ChooseTarget | src/utils/twoPlayerGameLogic.ts:434-445 | on an optimal move with smart targeting and a queue, the head of the queue is taken and removed. Otherwise the state is kept and the target is an unattacked cell, on the even squares when the strategic choice found one. A state with neither smart targeting nor the smart strategy, which is how easy is set up, always picks at random and keeps the state |
| ComputerPlayer.SelectTarget | src/utils/twoPlayerGameLogic.ts:431-445 | the method makes the choice `ChooseTarget` describes |
| ComputerPlayer.MakeComputerAttack | src/utils/twoPlayerGameLogic.ts:426-457 | the chosen target is attacked as `ResolveAttack` says, and no other grid cell changes. The state is updated from the result. A hit leaves strictly fewer unattacked cells |
| ComputerPlayer.AttackShrinksUnattacked | src/utils/twoPlayerGameLogic.ts:370-371 | attacking an unattacked cell, and touching no other, leaves strictly fewer unattacked cells |
| ComputerPlayer.ShotShrinksUnattacked | src/utils/twoPlayerGameLogic.ts:370-371 | the same, for the grid array after the shot |
| CellKeys.ParsePosition | src/utils/twoPlayerGameLogic.ts:341-344 | a key without a dash has no position; a position read back has no negative coordinate |
| CellKeys.GetCellKey | src/utils/twoPlayerGameLogic.ts:339 | for non-negative coordinates the key holds a dash and splits at it into exactly two numerals, whose values are the row and the column |
| CellKeys.KeyRoundTrip | src/utils/twoPlayerGameLogic.ts:339-344 | the key of a position with non-negative coordinates reads back as that position |
| CellKeys.NegativeRowMisread | src/utils/twoPlayerGameLogic.ts:339-344 | a negative row does not survive: the key of (-1, 2) is "-1-2" and reads back as (0, 1) |
| TwoPlayerMatch.CellName | src/hooks/useTwoPlayerGame.ts:233 | a column letter A-J for the column, then a numeral whose value is the row counted from 1 |
| TwoPlayerMatch.FindShip | src/hooks/useTwoPlayerGame.ts:64-67 | none iff no ship has the name; otherwise the first ship with it |
| TwoPlayerMatch.TemplatesFleetOk | src/hooks/useTwoPlayerGame.ts:31-34 | the templates form a fleet as the match keeps it |
| TwoPlayerMatch.ShotKeepsFleetOk | src/utils/twoPlayerGameLogic.ts:354-423 | a shot keeps the fleet laid out, with distinct names and sizes |
| TwoPlayerMatch.ShotKeepsAllSunk | src/utils/twoPlayerGameLogic.ts:398-404 | a sunk fleet stays sunk, and a winning shot leaves the fleet all sunk |
| TwoPlayerMatch.PlaceKeepsFleetOk | src/hooks/useTwoPlayerGame.ts:59-88 | placing a ship where the check against the whole fleet passed keeps the fleet as the match keeps it |
| TwoPlayerMatch.RemoveKeepsFleetOk | src/hooks/useTwoPlayerGame.ts:91-99 | removal keeps the fleet as the match keeps it |
| TwoPlayerMatch.RotateKeepsFleetOk | src/hooks/useTwoPlayerGame.ts:119-127 | rotation keeps the fleet as the match keeps it |
| TwoPlayerMatch.AutoPlacedFleetOk | src/hooks/useTwoPlayerGame.ts:102-110 | automatic placement keeps the fleet as the match keeps it, with names and sunk flags unchanged |
| TwoPlayerMatch.InitializeTwoPlayerGame | src/utils/twoPlayerGameLogic.ts:18-27 | two new, distinct boards without ships, and two new, distinct, blank 10 x 10 grids equal to the empty board |
| TwoPlayerMatch.BlankIsEmptyBoard | src/utils/twoPlayerGameLogic.ts:18-27 | a blank 10 x 10 grid holds the cells of the empty board |
| TwoPlayerMatch.NewMatchBoards | src/hooks/useTwoPlayerGame.ts:28-52 | the player's fleet is the unplaced templates. The computer's fleet is placed automatically from them. The grids are blank. Neither fleet is sunk |
| TwoPlayerMatch.NewMatchConsistent | src/hooks/useTwoPlayerGame.ts:28-56 | a new match with no shots, in the placement phase, is consistent |
| TwoPlayerMatch.PlayerFleetChangeConsistent | src/hooks/useTwoPlayerGame.ts:59-127 | a change to the player's fleet that keeps it laid out, and keeps every sunk flag, keeps the match consistent |
| TwoPlayerMatch.AfterPlayerShot | src/hooks/useTwoPlayerGame.ts:153-190 | the shot is counted, and so is a hit. The match ends for the player iff the shot wins. A hit keeps the turn and shows the shot's message. A miss hands the turn to the computer |
| TwoPlayerMatch.PlayerShotConsistent | src/hooks/useTwoPlayerGame.ts:142-191 | the player's shot keeps the match consistent |
| TwoPlayerMatch.AfterComputerMove | src/hooks/useTwoPlayerGame.ts:205-249 | the move is counted, and so is a hit. The match ends for the computer iff the move wins, with the defeat message. A miss hands the turn back with "Your turn!". A hit keeps the turn and reports the result and the cell, as in "Computer hit! at B7" |
| TwoPlayerMatch.ComputerMoveConsistent | src/hooks/useTwoPlayerGame.ts:194-252 | the computer's move keeps the match consistent |
| TwoPlayerMatch.ComputerStep | src/hooks/useTwoPlayerGame.ts:199-249 | one computer move on values. The move is counted. After a hit that does not win the computer goes again, with the battle still on, one more hit, the turn and winner kept, and one unattacked cell fewer. Otherwise it has won (defeat message, one more hit) or missed (turn back with "Your turn!", no hit) |
| TwoPlayerMatch.ComputerTurn | src/hooks/useTwoPlayerGame.ts:194-252 | the moves of one computer turn, chained while they hit without winning. The grid stays 10 x 10, the queue stays sound, and the settings do not change |
| TwoPlayerMatch.ComputerTurnOutcome | src/hooks/useTwoPlayerGame.ts:194-252 | a turn ends in one of three ways. The computer has won, its last shot a hit. Or it missed and handed the turn back, that shot the only one that was not a hit. Or it met a draw it could not aim with, after hits only. The player's counters are untouched, and a turn that can aim shoots at least once |
| TwoPlayerMatch.ComputerTurnConsistent | src/hooks/useTwoPlayerGame.ts:194-252 | a whole computer turn keeps the match consistent |
| TwoPlayerMatch.TwoPlayerGame.constructor | src/hooks/useTwoPlayerGame.ts:27-56 | the hook's initial state is consistent: placement phase, player to move, templates against the fleet `AutoPlacement` builds from them with the draws, blank grids, no shots, and the computer set up for the initial difficulty, medium unless given |
| TwoPlayerMatch.TwoPlayerGame.PlacePlayerShip | src/hooks/useTwoPlayerGame.ts:59-88 | an unknown name gives "Ship not found" and changes nothing. Otherwise the result is the placement check against the whole fleet, and the ship is placed iff the check passes. The match stays consistent |
| TwoPlayerMatch.TwoPlayerGame.RemovePlayerShip | src/hooks/useTwoPlayerGame.ts:91-99 | the named ship leaves the board; the match stays consistent |
| TwoPlayerMatch.TwoPlayerGame.RotatePlayerShip | src/hooks/useTwoPlayerGame.ts:119-127 | the named ship turns as `RotateShip` says; the match stays consistent |
| TwoPlayerMatch.TwoPlayerGame.AutoPlaceShips | src/hooks/useTwoPlayerGame.ts:102-110 | the player's fleet becomes `AutoPlacement` of the old fleet and the draws, and the board's own attack grid is kept. Placed ships stay. Each unplaced ship is placed apart from the others, or stays unplaced with no slot left. A fully placed fleet is unchanged |
| TwoPlayerMatch.TwoPlayerGame.UpdateDifficulty | src/hooks/useTwoPlayerGame.ts:113-116 | the new setting, and a computer started afresh for it; nothing else changes |
| TwoPlayerMatch.TwoPlayerGame.StartBattle | src/hooks/useTwoPlayerGame.ts:130-139 | once every ship is placed, the battle begins with the player to move; otherwise nothing changes |
| TwoPlayerMatch.TwoPlayerGame.PlayerShot | src/hooks/useTwoPlayerGame.ts:142-191 | out of turn or outside the battle, nothing changes. Otherwise the shot is resolved on the computer's fleet and the player's grid, and the record moves on as `AfterPlayerShot` says. The turn passes iff the shot did not hit |
| TwoPlayerMatch.TwoPlayerGame.ComputerMove | src/hooks/useTwoPlayerGame.ts:199-249 | one computer move as `makeComputerAttack` makes it: the target cell of the computer's grid becomes the resolved cell and no other cell changes. The record moves on as `AfterComputerMove` says, and the whole move is `ComputerStep`. The computer goes again iff it hit without winning, and then fewer cells are left unattacked |
| TwoPlayerMatch.TwoPlayerGame.ComputerMoves | src/hooks/useTwoPlayerGame.ts:194-252 | the chain of computer shots, each one scheduled after a hit until a miss, a win or a draw that cannot be aimed. The boards and the difficulty stay as they were, and the fleet, the grid, the computer's state and the record end exactly as `ComputerTurn` computes from the state before |
| TwoPlayerMatch.TwoPlayerGame.ExecuteComputerTurn | src/hooks/useTwoPlayerGame.ts:194-252 | outside the battle, nothing changes. Otherwise the fleet, the grid, the computer's state and the record end as `ComputerTurn` says from the state before, so the turn ends as `ComputerTurnOutcome` says. A turn whose first draw can aim shoots at least once |
| TwoPlayerMatch.TwoPlayerGame.AttackComputer | src/hooks/useTwoPlayerGame.ts:141-191 | out of turn, nothing changes. Otherwise the shot is resolved on the computer's fleet and marked on that one cell of the player's grid. After a hit or a win the record is `AfterPlayerShot`'s and the computer's side is untouched. After a miss the computer's turn runs as `ComputerTurn` says from that record |
| TwoPlayerMatch.TwoPlayerGame.ResetGame | src/hooks/useTwoPlayerGame.ts:255-281 | new boards and grids, the player's fleet the templates and the computer's fleet `AutoPlacement` of them with the draws, the counters cleared and the placement phase. The computer is set up for the initial difficulty, while the setting and the message are kept |
| TwoPlayerMatch.AimKeepsQueueOk | src/utils/twoPlayerGameLogic.ts:436-438 | taking the head of the queue keeps it on the board and free of repeats, and changes no setting |

## Left out

- Emoji in messages are dropped. The victory and defeat texts are otherwise as written.
- Timers: the delays of `setTimeout` (and the unused `delayBetweenMoves`) are not modelled. A continuation runs at once, so the intermediate messages are not modelled either. These are "Computer's turn...", and the computer's move report on a miss, which the hook replaces with "Your turn!" two seconds later.
- Stale closures are not modelled:
  - the hook's `executeComputerTurn` reads `gameState` and `aiState` from the render that created it, so a chained computer move reuses the captured computer state;
  - the model uses the state after the previous move.
  - `attackComputer` is memoised on `gameState` alone, so the `executeComputerTurn` it calls can hold an `aiState` older than a difficulty change made during the battle; the turn then runs with the old settings and writes them back with `setAiState`, undoing the change (src/hooks/useTwoPlayerGame.ts:113-116, 142-191, 194-252). In the model `UpdateDifficulty` takes effect at once and stays in effect.
  - `resetGame` (empty dependency list) does capture the initial difficulty, and the model keeps that.
- Aliasing is not modelled:
  - `updateAIState` copies the state shallowly, so the old and new states share the queue and the sizes list, and `shift`/`push`/`splice` mutate both;
  - the model treats states as values;
  - object identity of the spread copies the hook makes is not modelled either.
- Randomness: `Math.random` is replaced by explicit draws.
  - `hitProbability` is kept as a percentage compared with `roll % 100`.
  - `getRandomPosition` and `getRandomOrientation` are the draws `draws(n)`.
- Empty target list: `findRandomValidTarget` on a grid with no unattacked cell returns `undefined`, and the attack that follows throws. `FindRandomValidTarget` requires a free cell, and `ExecuteComputerTurn` ends the turn when no move can be aimed.
- RotateShip: requires the named ship, when placed, to have a first position (`Anchored`). A placed ship with no positions would make the code read `undefined` as the anchor and throw inside `canPlaceShip`; no fleet the match keeps (`FleetOk`) has such a ship.
- Off-board shots: `Combat.AttackPosition` requires an on-board position. The code would throw on the missing row.
- `ParsePosition`: a key with fewer than two pieces, or a piece that is not a string of digits, gives no position. In the code these are `undefined` or `NaN` fields. Other strings `Number` accepts (spaces, signs, exponents) are not modelled.
- Layout shapes: the validator's checks on values that are not objects, not arrays or not numbers have no counterpart. A layout entry here is always a name and a list of integer lists. The empty string stands for a missing name.
- The board parameter of `canPlaceShip` is ignored by the code and absent from the model. The `attacks` grid of a player's board is created but never read.
- Phase guards: placement, removal, rotation, automatic placement and `startBattle` consult no phase, as in the code.
- Sparse arrays: writing a hit flag past the end of `hits` extends the array with holes that `every` skips. `MarkHit` fills them with `true`.
- The single-player hook (`useGameState`), `attackCellLegacy`, statistics, rendering and console logging are not part of this model.
- UpdateAIState: its contract states the queue as a set with the old queue in front. The order of the cells appended is proved of `Enqueue` instead (`EnqueueAppendsNew`, `EnqueueAppendsInOrder`).
- Capitalize, ToLower: the case mapping covers ASCII letters only. JavaScript's `toUpperCase` and `toLowerCase` map all of Unicode, and can change a string's length. Ship names and result messages are ASCII, so the texts the model produces are the code's.
