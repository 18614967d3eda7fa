/**
 * The match against the computer as the game hook runs it: one object
 * holding both fleets, both attack grids, the phase and the turn, the shot
 * counters, the message shown to the player and the computer's state, with
 * one method per action the interface offers. The hook's timers become
 * plain sequencing: a miss hands the turn over and the computer's moves
 * follow at once; the random draws of each move are parameters.
 */
module TwoPlayerMatch {
  import opened Types
  import opened Text
  import opened Placement
  import opened Combat
  import opened ComputerPlayer
  import GameLogic

  const YourTurnMessage: string := "Your turn! Click on the enemy grid to attack."
  const ComputerTurnMessage: string := "Computer's turn..."
  const VictoryMessage: string := "Victory! You sank all enemy ships!"
  const DefeatMessage: string := "Defeat! The computer sank all your ships!"
  const ShipNotFoundMessage: string := "Ship not found"

  /** Shots, or hits, counted per side. */
  datatype Tally = Tally(player: nat, computer: nat)

  /** What the match shows apart from its boards and the computer's state. */
  datatype MatchStatus = MatchStatus(
    phase: GamePhase,
    currentTurn: Player,
    winner: Option<Player>,
    totalShots: Tally,
    hits: Tally,
    battleMessage: string)

  /** The column letter and the row counted from 1, as in "A1". */
  function CellName(p: Position): (s: string)
    requires InBounds(p)
    ensures |s| >= 2 && 'A' <= s[0] <= 'J' && AllDigits(s[1..])
    ensures s[0] as int - 'A' as int == p.col
    ensures DigitsValue(s[1..]) == p.row + 1
  {
    var name := [(65 + p.col) as char] + IntToString(p.row + 1);
    assert name[1..] == IntToString(p.row + 1);
    DigitsValueOfNatToString(p.row + 1);
    name
  }

  /** The report of one computer move: the result in lower case and the cell, as in "Computer miss! at B7". */
  function ComputerMoveMessage(result: AttackResult, p: Position): string
    requires InBounds(p)
  {
    "Computer " + ToLower(result.message) + " at " + CellName(p)
  }

  /** `ships.find(s => s.name === name)`, as the index of the first ship with that name. */
  function FindShip(ships: seq<TwoPlayerShip>, name: string): (r: Option<nat>)
    ensures r.None? <==> forall i :: 0 <= i < |ships| ==> ships[i].name != name
    ensures r.Some? ==>
      && r.value < |ships| && ships[r.value].name == name
      && forall j :: 0 <= j < r.value ==> ships[j].name != name
  {
    if ships == [] then None
    else if ships[0].name == name then Some(0)
    else
      match FindShip(ships[1..], name)
      case None => None
      case Some(k) => Some(k + 1)
  }

  /** Every cell of the grid is empty. */
  predicate Blank(a: array2<Cell>)
    reads a
  {
    forall r, c :: 0 <= r < a.Length0 && 0 <= c < a.Length1 ==> a[r, c] == EmptyCell
  }

  // ---------------------------------------------------------------------------
  // A fleet as the match keeps it

  /**
   * Placed ships lie on the board and apart, no two ships share a name,
   * every ship has cells to cover, and a placed ship has its anchor cell.
   */
  predicate FleetOk(ships: seq<TwoPlayerShip>) {
    && LaidOut(ships)
    && DistinctNames(ships)
    && forall i :: 0 <= i < |ships| ==> ships[i].size > 0 && (ships[i].isPlaced ==> ships[i].positions != [])
  }

  lemma TemplatesFleetOk()
    ensures FleetOk(FleetTemplates())
  {
    FleetTemplatesDistinct();
    var ships := FleetTemplates();
    forall i | 0 <= i < |ships| ensures ships[i].size > 0 {
      assert ships[i].size == ShipTypes[i].size;
    }
  }

  /** A shot changes hit and sunk flags only, so the fleet stays as the match keeps it. */
  lemma ShotKeepsFleetOk(p: Position, ships: seq<TwoPlayerShip>, cell: Cell)
    requires FleetOk(ships)
    ensures FleetOk(ResolveAttack(p, ships, cell).ships)
  {
    var r := ResolveAttack(p, ships, cell).ships;
    assert DistinctNames(r) by {
      forall i, j | 0 <= i < j < |r| ensures r[i].name != r[j].name {
        assert SameShip(ships[i], r[i]) && SameShip(ships[j], r[j]);
      }
    }
    forall i | 0 <= i < |r| ensures r[i].size > 0 && (r[i].isPlaced ==> r[i].positions != []) {
      assert SameShip(ships[i], r[i]);
    }
    forall i | 0 <= i < |r| && r[i].isPlaced ensures OnBoard(r[i].positions) {
      assert SameShip(ships[i], r[i]);
    }
    forall i, j | 0 <= i < |r| && 0 <= j < |r| && i != j && r[i].isPlaced && r[j].isPlaced
      ensures Apart(r[i], r[j])
    {
      assert SameShip(ships[i], r[i]) && SameShip(ships[j], r[j]);
      assert Apart(ships[i], ships[j]);
    }
  }

  /**
   * A shot never refloats a ship, so a fleet that was all sunk stays so; and
   * a winning shot leaves the fleet all sunk.
   */
  lemma ShotKeepsAllSunk(p: Position, ships: seq<TwoPlayerShip>, cell: Cell)
    ensures AllSunk(ships) ==> AllSunk(ResolveAttack(p, ships, cell).ships)
    ensures ResolveAttack(p, ships, cell).result.gameWon ==> AllSunk(ResolveAttack(p, ships, cell).ships)
  {
  }

  /** Placing a ship where it fits, against the whole fleet, keeps the fleet as the match keeps it. */
  lemma PlaceKeepsFleetOk(ships: seq<TwoPlayerShip>, name: string, start: Position, o: Orientation, k: nat)
    requires FleetOk(ships)
    requires k < |ships| && ships[k].name == name
    requires Fits(ships, start, ships[k].size, o)
    ensures FleetOk(PlaceShip(ships, name, start, o))
  {
    PlaceKeepsLaidOut(ships, name, start, o, k);
    var r := PlaceShip(ships, name, start, o);
    forall i | 0 <= i < |r| && r[i].isPlaced ensures r[i].positions != [] {
      if ships[i].name == name {
        assert |r[i].positions| == ships[i].size;
      }
    }
  }

  lemma RemoveKeepsFleetOk(ships: seq<TwoPlayerShip>, name: string)
    requires FleetOk(ships)
    ensures FleetOk(RemoveShipFromBoard(ships, name))
  {
    RemoveKeepsLaidOut(ships, name);
  }

  lemma RotateKeepsFleetOk(ships: seq<TwoPlayerShip>, name: string)
    requires FleetOk(ships)
    ensures Anchored(ships, name)
    ensures FleetOk(RotateShip(ships, name))
  {
    RotateKeepsLaidOut(ships, name);
    var r := RotateShip(ships, name);
    forall i | 0 <= i < |r| && r[i].isPlaced ensures r[i].positions != [] {
      if ships[i].name == name && ships[i].isPlaced {
        assert |Run(ships[i].positions[0], ships[i].size, Flip(ships[i].orientation))| == ships[i].size;
      }
    }
  }

  /** Automatic placement of the ships not yet on the board keeps the fleet as the match keeps it. */
  lemma AutoPlacedFleetOk(ships: seq<TwoPlayerShip>, r: seq<TwoPlayerShip>)
    requires FleetOk(ships)
    requires |r| == |ships|
    requires forall i :: 0 <= i < |ships| && ships[i].isPlaced ==> r[i] == ships[i]
    requires forall i :: 0 <= i < |ships| && !ships[i].isPlaced ==> AutoPlaced(ships[i], r, i)
    ensures FleetOk(r)
    ensures forall i :: 0 <= i < |ships| ==> r[i].name == ships[i].name && r[i].isSunk == ships[i].isSunk
  {
    AutoPlacedLaidOut(ships, r);
    forall i | 0 <= i < |ships|
      ensures && r[i].name == ships[i].name && r[i].size == ships[i].size && r[i].isSunk == ships[i].isSunk
              && (r[i].isPlaced ==> r[i].positions != [])
    {
      if !ships[i].isPlaced && r[i] != ships[i] {
        assert r[i] == Placed(ships[i], AnchorOf(r[i]), r[i].orientation);
        assert |r[i].positions| == ships[i].size;
      }
    }
  }

  /**
   * `initializeTwoPlayerGame`, for its parts that are objects: two new
   * boards with no ships and two new, blank attack grids. The phase, the
   * turn and the counters it also sets are fields of the match.
   */
  method InitializeTwoPlayerGame() returns (pb: PlayerBoard, cb: PlayerBoard, pa: array2<Cell>, ca: array2<Cell>)
    ensures fresh(pb) && fresh(cb) && fresh(pa) && fresh(ca)
    ensures pb.ships == [] && cb.ships == []
    ensures pb.attacks == GameLogic.CreateEmptyBoard() && cb.attacks == GameLogic.CreateEmptyBoard()
    ensures pb != cb && pa != ca
    ensures pa.Length0 == BoardSize && pa.Length1 == BoardSize && ca.Length0 == BoardSize && ca.Length1 == BoardSize
    ensures GridOf(pa) == GameLogic.CreateEmptyBoard() && GridOf(ca) == GameLogic.CreateEmptyBoard()
    ensures Blank(pa) && Blank(ca)
  {
    pb := new PlayerBoard();
    cb := new PlayerBoard();
    pa := new Cell[BoardSize, BoardSize]((r, c) => EmptyCell);
    ca := new Cell[BoardSize, BoardSize]((r, c) => EmptyCell);
    BlankIsEmptyBoard(pa);
    BlankIsEmptyBoard(ca);
  }

  /** A blank 10 x 10 grid holds the cells of `createEmptyBoard`. */
  lemma BlankIsEmptyBoard(a: array2<Cell>)
    requires a.Length0 == BoardSize && a.Length1 == BoardSize && Blank(a)
    ensures GridOf(a) == GameLogic.CreateEmptyBoard()
  {
    var g, e := GridOf(a), GameLogic.CreateEmptyBoard();
    forall r | 0 <= r < BoardSize ensures g[r] == e[r] {
      assert forall c :: 0 <= c < BoardSize ==> g[r][c] == e[r][c];
    }
  }

  /**
   * The fleets of a new match: the player's as unplaced templates, the
   * computer's placed automatically from the same templates with the
   * random source `draws` (`AutoPlacementPlaces` says where each ship goes).
   */
  predicate NewFleets(player: seq<TwoPlayerShip>, computer: seq<TwoPlayerShip>, draws: nat -> Draw) {
    && player == FleetTemplates()
    && computer == AutoPlacement(player, draws)
  }

  /**
   * The boards of a new match, as the hook builds them: the player's fleet
   * as unplaced templates, the computer's placed automatically from the
   * same templates, and blank grids.
   */
  method NewMatchBoards(draws: nat -> Draw) returns (pb: PlayerBoard, cb: PlayerBoard, pa: array2<Cell>, ca: array2<Cell>)
    ensures fresh(pb) && fresh(cb) && fresh(pa) && fresh(ca)
    ensures pb != cb && pa != ca
    ensures pa.Length0 == BoardSize && pa.Length1 == BoardSize && ca.Length0 == BoardSize && ca.Length1 == BoardSize
    ensures Blank(pa) && Blank(ca)
    ensures NewFleets(pb.ships, cb.ships, draws) && FleetOk(pb.ships) && FleetOk(cb.ships)
    ensures !AllSunk(pb.ships) && !AllSunk(cb.ships)
  {
    pb, cb, pa, ca := InitializeTwoPlayerGame();
    pb.ships := FleetTemplates();
    var placed := Placement.AutoPlaceShips(FleetTemplates(), draws);
    cb.ships := placed;
    TemplatesFleetOk();
    AutoPlacedFleetOk(FleetTemplates(), placed);
    assert !pb.ships[0].isSunk && !cb.ships[0].isSunk;
  }

  // ---------------------------------------------------------------------------
  // The match record, as a value

  /**
   * What a consistent match holds: both fleets kept as `FleetOk` says, the
   * computer's queue on the board and free of repeats, no side with more
   * hits than shots, a winner for a finished match, and a recorded winner
   * that has sunk every ship of the other side.
   */
  predicate Consistent(player: seq<TwoPlayerShip>, computer: seq<TwoPlayerShip>, ai: AIState, st: MatchStatus) {
    && FleetOk(player) && FleetOk(computer)
    && QueueOk(ai)
    && st.hits.player <= st.totalShots.player && st.hits.computer <= st.totalShots.computer
    && (st.phase == GameOverPhase ==> st.winner.Some?)
    && (st.winner == Some(HumanPlayer) ==> AllSunk(computer))
    && (st.winner == Some(Computer) ==> AllSunk(player))
  }

  /** A new match is consistent. */
  lemma NewMatchConsistent(player: seq<TwoPlayerShip>, computer: seq<TwoPlayerShip>, difficulty: Difficulty, message: string)
    requires FleetOk(player) && FleetOk(computer)
    ensures Consistent(player, computer, InitializeAI(difficulty),
                       MatchStatus(PlacementPhase, HumanPlayer, None, Tally(0, 0), Tally(0, 0), message))
  {
  }

  /**
   * Changing the player's fleet in a way that keeps it as `FleetOk` says
   * and keeps every sunk flag keeps the match consistent.
   */
  lemma PlayerFleetChangeConsistent(
    player: seq<TwoPlayerShip>, player': seq<TwoPlayerShip>, computer: seq<TwoPlayerShip>, ai: AIState, st: MatchStatus)
    requires Consistent(player, computer, ai, st)
    requires FleetOk(player')
    requires |player'| == |player| && forall i :: 0 <= i < |player| ==> player'[i].isSunk == player[i].isSunk
    ensures Consistent(player', computer, ai, st)
  {
  }

  /**
   * The record after the player's shot with `result`, in the battle on the
   * player's turn: the shot is counted, and a hit too. A winning shot ends
   * the match for the player; another hit keeps the turn and shows the
   * shot's message; a miss hands the turn to the computer.
   */
  function AfterPlayerShot(st: MatchStatus, result: AttackResult): (st': MatchStatus)
    requires st.phase == BattlePhase && st.currentTurn == HumanPlayer
    ensures st'.totalShots == st.totalShots.(player := st.totalShots.player + 1)
    ensures st'.hits.player == st.hits.player + (if result.hit then 1 else 0) && st'.hits.computer == st.hits.computer
    ensures st'.phase == GameOverPhase <==> result.gameWon
    ensures st'.phase == BattlePhase <==> !result.gameWon
    ensures result.gameWon ==> st'.winner == Some(HumanPlayer) && st'.battleMessage == VictoryMessage
    ensures !result.gameWon ==> st'.winner == st.winner
    ensures st'.currentTurn == Computer <==> !result.gameWon && !result.hit
    ensures result.hit && !result.gameWon ==> st'.battleMessage == result.message
    ensures !result.hit && !result.gameWon ==> st'.battleMessage == ComputerTurnMessage
  {
    var counted := st.(totalShots := st.totalShots.(player := st.totalShots.player + 1),
                       hits := st.hits.(player := st.hits.player + (if result.hit then 1 else 0)));
    if result.gameWon then
      counted.(phase := GameOverPhase, winner := Some(HumanPlayer), battleMessage := VictoryMessage)
    else if result.hit then
      counted.(battleMessage := result.message)
    else
      counted.(currentTurn := Computer, battleMessage := ComputerTurnMessage)
  }

  /** The player's shot keeps the match consistent. */
  lemma PlayerShotConsistent(
    player: seq<TwoPlayerShip>, computer: seq<TwoPlayerShip>, ai: AIState, st: MatchStatus, p: Position, cell: Cell)
    requires Consistent(player, computer, ai, st)
    requires st.phase == BattlePhase && st.currentTurn == HumanPlayer
    ensures var s := ResolveAttack(p, computer, cell);
      Consistent(player, s.ships, ai, AfterPlayerShot(st, s.result))
  {
    ShotKeepsFleetOk(p, computer, cell);
    ShotKeepsAllSunk(p, computer, cell);
  }

  /**
   * The record after the computer's move at `p` with `result`: the move is
   * counted, and a hit too. A winning move ends the match for the
   * computer; another hit is reported and the computer keeps moving; a
   * miss hands the turn back to the player.
   */
  function AfterComputerMove(st: MatchStatus, result: AttackResult, p: Position): (st': MatchStatus)
    requires st.phase == BattlePhase && InBounds(p)
    ensures st'.totalShots == st.totalShots.(computer := st.totalShots.computer + 1)
    ensures st'.hits.computer == st.hits.computer + (if result.hit then 1 else 0) && st'.hits.player == st.hits.player
    ensures st'.phase == GameOverPhase <==> result.gameWon
    ensures st'.phase == BattlePhase <==> !result.gameWon
    ensures result.gameWon ==> st'.winner == Some(Computer) && st'.battleMessage == DefeatMessage
    ensures !result.gameWon ==> st'.winner == st.winner
    ensures !result.hit && !result.gameWon ==> st'.currentTurn == HumanPlayer && st'.battleMessage == YourTurnMessage
    ensures result.hit || result.gameWon ==> st'.currentTurn == st.currentTurn
    ensures result.hit && !result.gameWon ==> st'.battleMessage == ComputerMoveMessage(result, p)
  {
    var counted := st.(totalShots := st.totalShots.(computer := st.totalShots.computer + 1),
                       hits := st.hits.(computer := st.hits.computer + (if result.hit then 1 else 0)));
    if result.gameWon then
      counted.(phase := GameOverPhase, winner := Some(Computer), battleMessage := DefeatMessage)
    else if result.hit then
      counted.(battleMessage := ComputerMoveMessage(result, p))
    else
      counted.(currentTurn := HumanPlayer, battleMessage := YourTurnMessage)
  }

  /** The computer's move keeps the match consistent. */
  lemma ComputerMoveConsistent(
    player: seq<TwoPlayerShip>, computer: seq<TwoPlayerShip>, ai: AIState, ai': AIState, st: MatchStatus,
    p: Position, cell: Cell)
    requires Consistent(player, computer, ai, st) && QueueOk(ai') && InBounds(p) && st.phase == BattlePhase
    ensures var s := ResolveAttack(p, player, cell);
      Consistent(s.ships, computer, ai', AfterComputerMove(st, s.result, p))
  {
    ShotKeepsFleetOk(p, player, cell);
    ShotKeepsAllSunk(p, player, cell);
  }

  // ---------------------------------------------------------------------------
  // The computer's turn, on values

  /** What the computer's moves change: the player's fleet, the computer's grid, the computer's state and the record. */
  datatype TurnState = TurnState(fleet: seq<TwoPlayerShip>, grid: seq<seq<Cell>>, ai: AIState, status: MatchStatus)

  /** A state the computer can move from: a 10 x 10 grid, a sound queue, and the battle on. */
  predicate Ready(t: TurnState) {
    IsGrid(t.grid) && QueueOk(t.ai) && t.status.phase == BattlePhase
  }

  /** The grid `g` with cell `p` replaced by `cell`. */
  function WithCell(g: seq<seq<Cell>>, p: Position, cell: Cell): (g': seq<seq<Cell>>)
    requires IsGrid(g) && InBounds(p)
    ensures IsGrid(g') && g'[p.row][p.col] == cell
    ensures forall r, c :: 0 <= r < BoardSize && 0 <= c < BoardSize && (r != p.row || c != p.col) ==> g'[r][c] == g[r][c]
  {
    g[p.row := g[p.row][p.col := cell]]
  }

  /** One move and whether the computer moves again. */
  datatype Move = Move(after: TurnState, again: bool)

  /**
   * One move of the computer from `t`: the target is chosen, the shot is
   * resolved on the fleet and marked on the grid, the state learns from
   * the result and the record moves on. The computer goes again after a
   * hit that does not win, and then the battle is still on and one cell
   * fewer is left unattacked.
   */
  function ComputerStep(t: TurnState, choice: AIChoice): (m: Move)
    requires Ready(t) && CanAim(t.grid, t.ai, choice)
    ensures IsGrid(m.after.grid) && QueueOk(m.after.ai) && SameSettings(t.ai, m.after.ai)
    ensures m.again ==> Ready(m.after) && Unattacked(m.after.grid) < Unattacked(t.grid)
    ensures m.after.status.totalShots == t.status.totalShots.(computer := t.status.totalShots.computer + 1)
    ensures m.after.status.hits.player == t.status.hits.player
    ensures m.again ==>
      && m.after.status.hits.computer == t.status.hits.computer + 1
      && m.after.status.currentTurn == t.status.currentTurn && m.after.status.winner == t.status.winner
    ensures !m.again ==>
      || (&& m.after.status.phase == GameOverPhase && m.after.status.winner == Some(Computer)
          && m.after.status.battleMessage == DefeatMessage && m.after.status.currentTurn == t.status.currentTurn
          && m.after.status.hits.computer == t.status.hits.computer + 1)
      || (&& m.after.status.phase == BattlePhase && m.after.status.currentTurn == HumanPlayer
          && m.after.status.battleMessage == YourTurnMessage && m.after.status.winner == t.status.winner
          && m.after.status.hits.computer == t.status.hits.computer)
  {
    var aim := ChooseTarget(t.grid, t.ai, choice);
    AimKeepsQueueOk(t.grid, t.ai, choice);
    var p := aim.target;
    var s := ResolveAttack(p, t.fleet, t.grid[p.row][p.col]);
    var g' := WithCell(t.grid, p, s.cell);
    var after := TurnState(s.ships, g', UpdateAIState(aim.ai, p, s.result), AfterComputerMove(t.status, s.result, p));
    if s.result.hit && !s.result.gameWon then
      AttackShrinksUnattacked(t.grid, g', p);
      Move(after, true)
    else
      Move(after, false)
  }

  /**
   * The whole of `executeComputerTurn` from `t`, the `n`-th draw of
   * `choices` first: moves follow one another for as long as they hit
   * without winning, and the turn stops at a draw that finds nothing to
   * aim at.
   */
  function ComputerTurn(t: TurnState, choices: nat -> AIChoice, n: nat): (r: TurnState)
    requires Ready(t)
    ensures IsGrid(r.grid) && QueueOk(r.ai) && SameSettings(t.ai, r.ai)
    decreases Unattacked(t.grid)
  {
    if !CanAim(t.grid, t.ai, choices(n)) then t
    else
      var m := ComputerStep(t, choices(n));
      if m.again then ComputerTurn(m.after, choices, n + 1) else m.after
  }

  /**
   * How a turn from `t` may end in `r`, its first draw the `n`-th. Either
   * the computer has won, its last shot a hit; or it missed and handed the
   * turn back, its last shot the only one that was not a hit; or it met a
   * draw it could not aim with, after hits only, one draw per shot before
   * it. Nothing of the player's side is counted.
   */
  predicate TurnEnds(t: TurnState, r: TurnState, choices: nat -> AIChoice, n: nat)
    requires IsGrid(r.grid)
  {
    var shots := r.status.totalShots.computer - t.status.totalShots.computer;
    var hits := r.status.hits.computer - t.status.hits.computer;
    && r.status.totalShots.player == t.status.totalShots.player && r.status.hits.player == t.status.hits.player
    && hits >= 0
    && (|| (&& r.status.phase == GameOverPhase && r.status.winner == Some(Computer) && r.status.battleMessage == DefeatMessage
            && r.status.currentTurn == t.status.currentTurn && shots == hits >= 1)
        || (&& r.status.phase == BattlePhase && r.status.currentTurn == HumanPlayer && r.status.battleMessage == YourTurnMessage
            && r.status.winner == t.status.winner && shots == hits + 1)
        || (&& r.status.phase == BattlePhase && r.status.currentTurn == t.status.currentTurn
            && r.status.winner == t.status.winner && shots == hits && n + shots >= 0
            && !CanAim(r.grid, r.ai, choices(n + shots))))
  }

  /** A hit that does not win, followed by a turn that ends, is a turn that ends. */
  lemma EndsAfterHit(t: TurnState, a: TurnState, r: TurnState, choices: nat -> AIChoice, n: nat)
    requires IsGrid(r.grid) && TurnEnds(a, r, choices, n + 1)
    requires a.status.totalShots == t.status.totalShots.(computer := t.status.totalShots.computer + 1)
    requires a.status.hits == t.status.hits.(computer := t.status.hits.computer + 1)
    requires a.status.currentTurn == t.status.currentTurn && a.status.winner == t.status.winner
    ensures TurnEnds(t, r, choices, n)
    ensures r.status.totalShots.computer > t.status.totalShots.computer
  {
    assert n + 1 + (r.status.totalShots.computer - a.status.totalShots.computer)
      == n + (r.status.totalShots.computer - t.status.totalShots.computer);
  }

  /** A move that ends the turn is a turn that ends. */
  lemma EndsWithLastMove(t: TurnState, choices: nat -> AIChoice, n: nat)
    requires Ready(t) && CanAim(t.grid, t.ai, choices(n))
    requires !ComputerStep(t, choices(n)).again
    ensures TurnEnds(t, ComputerStep(t, choices(n)).after, choices, n)
  {
  }

  /** One unfolding of `ComputerTurn` when the draw can aim. */
  lemma TurnUnfolds(t: TurnState, choices: nat -> AIChoice, n: nat)
    requires Ready(t) && CanAim(t.grid, t.ai, choices(n))
    ensures var m := ComputerStep(t, choices(n));
      ComputerTurn(t, choices, n) == if m.again then ComputerTurn(m.after, choices, n + 1) else m.after
  {
  }

  /**
   * How the computer's turn ends, as `TurnEnds` says; a turn that can aim
   * at all shoots at least once.
   */
  lemma {:induction false} ComputerTurnOutcome(t: TurnState, choices: nat -> AIChoice, n: nat)
    requires Ready(t)
    ensures TurnEnds(t, ComputerTurn(t, choices, n), choices, n)
    ensures CanAim(t.grid, t.ai, choices(n)) ==>
      ComputerTurn(t, choices, n).status.totalShots.computer > t.status.totalShots.computer
    decreases Unattacked(t.grid)
  {
    if !CanAim(t.grid, t.ai, choices(n)) {
      assert ComputerTurn(t, choices, n) == t;
    } else {
      var m := ComputerStep(t, choices(n));
      TurnUnfolds(t, choices, n);
      if m.again {
        ComputerTurnOutcome(m.after, choices, n + 1);
        EndsAfterHit(t, m.after, ComputerTurn(m.after, choices, n + 1), choices, n);
      } else {
        EndsWithLastMove(t, choices, n);
      }
    }
  }

  /** The computer's moves keep the match consistent. */
  lemma {:induction false} ComputerTurnConsistent(t: TurnState, computer: seq<TwoPlayerShip>, choices: nat -> AIChoice, n: nat)
    requires Ready(t) && Consistent(t.fleet, computer, t.ai, t.status)
    ensures var r := ComputerTurn(t, choices, n); Consistent(r.fleet, computer, r.ai, r.status)
    decreases Unattacked(t.grid)
  {
    if CanAim(t.grid, t.ai, choices(n)) {
      var m := ComputerStep(t, choices(n));
      var aim := ChooseTarget(t.grid, t.ai, choices(n));
      AimKeepsQueueOk(t.grid, t.ai, choices(n));
      var p := aim.target;
      ComputerMoveConsistent(t.fleet, computer, t.ai, m.after.ai, t.status, p, t.grid[p.row][p.col]);
      if m.again {
        ComputerTurnConsistent(m.after, computer, choices, n + 1);
      }
    }
  }

  // ---------------------------------------------------------------------------
  // The match

  class TwoPlayerGame {
    var phase: GamePhase
    var currentTurn: Player
    var playerBoard: PlayerBoard
    var computerBoard: PlayerBoard
    /** The player's shots at the computer's fleet. */
    var playerAttacks: array2<Cell>
    /** The computer's shots at the player's fleet. */
    var computerAttacks: array2<Cell>
    var winner: Option<Player>
    var totalShots: Tally
    var hits: Tally
    var aiState: AIState
    var difficulty: Difficulty
    var battleMessage: string
    /** The difficulty the match was created with, which a reset goes back to. */
    const initialDifficulty: Difficulty

    function Status(): MatchStatus
      reads this
    {
      MatchStatus(phase, currentTurn, winner, totalShots, hits, battleMessage)
    }

    function Boards(): (PlayerBoard, PlayerBoard, array2<Cell>, array2<Cell>)
      reads this
    {
      (playerBoard, computerBoard, playerAttacks, computerAttacks)
    }

    /** What the computer's moves change, as a value. */
    function Snapshot(): TurnState
      reads this, playerBoard, computerAttacks
    {
      TurnState(playerBoard.ships, GridOf(computerAttacks), aiState, Status())
    }

    /** The two sides are separate objects, both grids are 10 x 10, and the record is consistent. */
    predicate Valid()
      reads this, playerBoard, computerBoard
    {
      && playerBoard != computerBoard
      && playerAttacks != computerAttacks
      && playerAttacks.Length0 == BoardSize && playerAttacks.Length1 == BoardSize
      && computerAttacks.Length0 == BoardSize && computerAttacks.Length1 == BoardSize
      && Consistent(playerBoard.ships, computerBoard.ships, aiState, Status())
    }

    /** Replaces the record shown to the player; nothing else changes. */
    method SetStatus(st: MatchStatus)
      modifies this
      ensures Status() == st
      ensures Boards() == old(Boards()) && aiState == old(aiState) && difficulty == old(difficulty)
    {
      phase, currentTurn, winner := st.phase, st.currentTurn, st.winner;
      totalShots, hits, battleMessage := st.totalShots, st.hits, st.battleMessage;
    }

    /**
     * The hook's initial state: the placement phase with the player to
     * move, the player's fleet as unplaced templates, the computer's fleet
     * placed automatically from the same templates, blank grids, no shots,
     * and the computer set up for `initialDifficulty`, medium unless given.
     */
    constructor (draws: nat -> Draw, initialDifficulty: Difficulty := Medium)
      ensures Valid()
      ensures this.initialDifficulty == initialDifficulty
      ensures Status() == MatchStatus(PlacementPhase, HumanPlayer, None, Tally(0, 0), Tally(0, 0), "")
      ensures aiState == InitializeAI(initialDifficulty) && difficulty == initialDifficulty
      ensures NewFleets(playerBoard.ships, computerBoard.ships, draws)
      ensures Blank(playerAttacks) && Blank(computerAttacks)
      ensures fresh(playerBoard) && fresh(computerBoard) && fresh(playerAttacks) && fresh(computerAttacks)
    {
      var pb, cb, pa, ca := NewMatchBoards(draws);
      NewMatchConsistent(pb.ships, cb.ships, initialDifficulty, "");
      phase, currentTurn, winner := PlacementPhase, HumanPlayer, None;
      playerBoard, computerBoard, playerAttacks, computerAttacks := pb, cb, pa, ca;
      totalShots, hits := Tally(0, 0), Tally(0, 0);
      aiState := InitializeAI(initialDifficulty);
      difficulty := initialDifficulty;
      battleMessage := "";
      this.initialDifficulty := initialDifficulty;
    }

    /**
     * `placePlayerShip`: an unknown name is reported and changes nothing.
     * Otherwise the run is checked against the whole fleet, the ship's own
     * current cells included, and the ship is put on the board exactly when
     * the check passes. The phase is not consulted.
     */
    method PlacePlayerShip(shipName: string, startPos: Position, orientation: Orientation)
      returns (validation: PlacementValidation)
      requires Valid()
      modifies playerBoard
      ensures playerBoard.attacks == old(playerBoard.attacks)
      ensures Valid()
      ensures var ships := old(playerBoard.ships);
        match FindShip(ships, shipName)
        case None =>
          && validation == PlacementValidation(false, false, Some(ShipNotFoundMessage), None)
          && playerBoard.ships == ships
        case Some(k) =>
          && validation == CheckPlacement(ships, startPos, ships[k].size, orientation)
          && playerBoard.ships == (if validation.canPlace then PlaceShip(ships, shipName, startPos, orientation) else ships)
    {
      var found := FindShip(playerBoard.ships, shipName);
      if found.None? {
        return PlacementValidation(false, false, Some(ShipNotFoundMessage), None);
      }
      var ship := playerBoard.ships[found.value];
      validation := CanPlaceShip(playerBoard.ships, startPos, ship.size, orientation);
      if validation.canPlace {
        var ships' := PlaceShip(playerBoard.ships, shipName, startPos, orientation);
        PlaceKeepsFleetOk(playerBoard.ships, shipName, startPos, orientation, found.value);
        PlayerFleetChangeConsistent(playerBoard.ships, ships', computerBoard.ships, aiState, Status());
        playerBoard.ships := ships';
      }
    }

    /** `removePlayerShip`: the named ship leaves the board. */
    method RemovePlayerShip(shipName: string)
      requires Valid()
      modifies playerBoard
      ensures playerBoard.attacks == old(playerBoard.attacks)
      ensures Valid()
      ensures playerBoard.ships == RemoveShipFromBoard(old(playerBoard.ships), shipName)
    {
      var ships' := RemoveShipFromBoard(playerBoard.ships, shipName);
      RemoveKeepsFleetOk(playerBoard.ships, shipName);
      PlayerFleetChangeConsistent(playerBoard.ships, ships', computerBoard.ships, aiState, Status());
      playerBoard.ships := ships';
    }

    /** `rotatePlayerShip`: the named ship turns about its anchor when it fits. */
    method RotatePlayerShip(shipName: string)
      requires Valid()
      modifies playerBoard
      ensures playerBoard.attacks == old(playerBoard.attacks)
      ensures Valid()
      ensures Anchored(old(playerBoard.ships), shipName)
      ensures playerBoard.ships == RotateShip(old(playerBoard.ships), shipName)
    {
      RotateKeepsFleetOk(playerBoard.ships, shipName);
      var ships' := RotateShip(playerBoard.ships, shipName);
      PlayerFleetChangeConsistent(playerBoard.ships, ships', computerBoard.ships, aiState, Status());
      playerBoard.ships := ships';
    }

    /** `autoPlaceShips`: the player's ships not yet on the board are placed automatically. */
    method AutoPlaceShips(draws: nat -> Draw)
      requires Valid()
      modifies playerBoard
      ensures playerBoard.attacks == old(playerBoard.attacks)
      ensures Valid()
      ensures var ships := old(playerBoard.ships);
        && playerBoard.ships == AutoPlacement(ships, draws)
        && (AllShipsPlaced(ships) ==> playerBoard.ships == ships)
        && |playerBoard.ships| == |ships|
        && (forall i :: 0 <= i < |ships| && ships[i].isPlaced ==> playerBoard.ships[i] == ships[i])
        && (forall i :: 0 <= i < |ships| && !ships[i].isPlaced ==> AutoPlaced(ships[i], playerBoard.ships, i))
    {
      var ships' := AutoPlaceRemainingShips(playerBoard.ships, draws);
      AutoPlacedFleetOk(playerBoard.ships, ships');
      PlayerFleetChangeConsistent(playerBoard.ships, ships', computerBoard.ships, aiState, Status());
      playerBoard.ships := ships';
    }

    /** `updateDifficulty`: the new setting, and a computer started afresh for it. */
    method UpdateDifficulty(newDifficulty: Difficulty)
      requires Valid()
      modifies this
      ensures Valid()
      ensures difficulty == newDifficulty && aiState == InitializeAI(newDifficulty)
      ensures Status() == old(Status()) && Boards() == old(Boards())
    {
      difficulty := newDifficulty;
      aiState := InitializeAI(newDifficulty);
    }

    /**
     * `startBattle`: once every ship of the player is on the board, the
     * battle begins with the player to move. The phase is not consulted.
     */
    method StartBattle()
      requires Valid()
      modifies this
      ensures Valid()
      ensures AllShipsPlaced(playerBoard.ships) ==>
        Status() == old(Status()).(phase := BattlePhase, currentTurn := HumanPlayer, battleMessage := YourTurnMessage)
      ensures !AllShipsPlaced(playerBoard.ships) ==> Status() == old(Status())
      ensures aiState == old(aiState) && difficulty == old(difficulty) && Boards() == old(Boards())
    {
      if AllShipsPlaced(playerBoard.ships) {
        SetStatus(Status().(phase := BattlePhase, currentTurn := HumanPlayer, battleMessage := YourTurnMessage));
      }
    }

    /**
     * The player's shot, the part of `attackComputer` before the turn
     * changes hands. It is ignored outside the battle or out of turn.
     * Otherwise the shot is resolved on the computer's fleet and the
     * player's grid, and the record moves on as `AfterPlayerShot` says;
     * the turn passes (`passTurn`) exactly on a miss, a repeated shot
     * included.
     */
    method PlayerShot(position: Position) returns (passTurn: bool)
      requires Valid() && InBounds(position)
      modifies this, computerBoard, playerAttacks
      ensures computerBoard.attacks == old(computerBoard.attacks)
      ensures Valid()
      ensures Boards() == old(Boards()) && aiState == old(aiState) && difficulty == old(difficulty)
      ensures old(phase) != BattlePhase || old(currentTurn) != HumanPlayer ==>
        && !passTurn && Status() == old(Status())
        && computerBoard.ships == old(computerBoard.ships) && unchanged(playerAttacks)
      ensures old(phase) == BattlePhase && old(currentTurn) == HumanPlayer ==>
        var s := ResolveAttack(position, old(computerBoard.ships), old(playerAttacks[position.row, position.col]));
        && computerBoard.ships == s.ships
        && playerAttacks[position.row, position.col] == s.cell
        && Status() == AfterPlayerShot(old(Status()), s.result)
        && passTurn == !s.result.hit
      ensures forall r, c ::
        0 <= r < BoardSize && 0 <= c < BoardSize && (r != position.row || c != position.col) ==>
        playerAttacks[r, c] == old(playerAttacks[r, c])
    {
      if phase != BattlePhase || currentTurn != HumanPlayer {
        return false;
      }
      PlayerShotConsistent(playerBoard.ships, computerBoard.ships, aiState, Status(),
                           position, playerAttacks[position.row, position.col]);
      var result := AttackPosition(position, computerBoard, playerAttacks);
      SetStatus(AfterPlayerShot(Status(), result));
      passTurn := !result.hit;
    }

    /**
     * One move of `executeComputerTurn`, when the computer can aim: the
     * target and the attack are `makeComputerAttack`'s, and the record
     * moves on as `AfterComputerMove` says. The computer moves again
     * (`again`) after a hit that does not win, and then one cell fewer is
     * left unattacked.
     */
    method ComputerMove(choice: AIChoice) returns (again: bool)
      requires Valid() && phase == BattlePhase
      requires CanAim(GridOf(computerAttacks), aiState, choice)
      modifies this, playerBoard, computerAttacks
      ensures playerBoard.attacks == old(playerBoard.attacks)
      ensures Valid()
      ensures Boards() == old(Boards()) && difficulty == old(difficulty)
      ensures var aim := ChooseTarget(old(GridOf(computerAttacks)), old(aiState), choice);
        var s := ResolveAttack(aim.target, old(playerBoard.ships), old(computerAttacks[aim.target.row, aim.target.col]));
        && playerBoard.ships == s.ships
        && aiState == UpdateAIState(aim.ai, aim.target, s.result)
        && Status() == AfterComputerMove(old(Status()), s.result, aim.target)
        && again == (s.result.hit && !s.result.gameWon)
      ensures var p := ChooseTarget(old(GridOf(computerAttacks)), old(aiState), choice).target;
        && computerAttacks[p.row, p.col] == ResolveAttack(p, old(playerBoard.ships), old(computerAttacks[p.row, p.col])).cell
        && forall r, c :: 0 <= r < BoardSize && 0 <= c < BoardSize && (r != p.row || c != p.col) ==>
             computerAttacks[r, c] == old(computerAttacks[r, c])
      ensures ComputerStep(old(Snapshot()), choice) == Move(Snapshot(), again)
      ensures SameSettings(old(aiState), aiState)
      ensures again ==> Unattacked(GridOf(computerAttacks)) < old(Unattacked(GridOf(computerAttacks)))
    {
      ghost var t := Snapshot();
      ghost var g := GridOf(computerAttacks);
      ghost var aim := ChooseTarget(g, aiState, choice);
      AimKeepsQueueOk(g, aiState, choice);
      var position, result, newAI := MakeComputerAttack(playerBoard, computerAttacks, aiState, choice);
      ghost var cell := old(computerAttacks[position.row, position.col]);
      ComputerMoveConsistent(old(playerBoard.ships), computerBoard.ships, old(aiState), newAI, Status(),
                             position, cell);
      GridAfterShot(g, computerAttacks, position, ResolveAttack(position, t.fleet, cell).cell);
      aiState := newAI;
      SetStatus(AfterComputerMove(Status(), result, position));
      again := result.hit && !result.gameWon;
    }

    /**
     * `executeComputerTurn`: ignored outside the battle. Otherwise the
     * computer moves, one move per draw of `choices`, for as long as it hits
     * without winning: the fleet, the grid, the computer's state and the
     * record end as `ComputerTurn` says, and so the turn ends as
     * `TurnEnds` says. Every hit marks a cell not attacked before, so the
     * moves come to an end.
     */
    method ExecuteComputerTurn(choices: nat -> AIChoice)
      requires Valid()
      modifies this, playerBoard, computerAttacks
      ensures playerBoard.attacks == old(playerBoard.attacks)
      ensures Valid()
      ensures Boards() == old(Boards()) && difficulty == old(difficulty)
      ensures old(phase) != BattlePhase ==>
        && Status() == old(Status()) && aiState == old(aiState)
        && playerBoard.ships == old(playerBoard.ships) && unchanged(computerAttacks)
      ensures old(phase) == BattlePhase ==>
        && Snapshot() == ComputerTurn(old(Snapshot()), choices, 0)
        && TurnEnds(old(Snapshot()), Snapshot(), choices, 0)
        && (CanAim(old(GridOf(computerAttacks)), old(aiState), choices(0)) ==> totalShots.computer > old(totalShots.computer))
        && (old(currentTurn) == Computer && currentTurn == HumanPlayer ==>
              totalShots.computer - old(totalShots.computer) == hits.computer - old(hits.computer) + 1)
        && SameSettings(old(aiState), aiState)
    {
      if phase != BattlePhase {
        return;
      }
      ghost var t0 := Snapshot();
      ComputerMoves(choices);
      ComputerTurnOutcome(t0, choices, 0);
    }

    /** The loop of `executeComputerTurn` in the battle: the moves `ComputerTurn` describes. */
    method ComputerMoves(choices: nat -> AIChoice)
      requires Valid() && phase == BattlePhase
      modifies this, playerBoard, computerAttacks
      ensures playerBoard.attacks == old(playerBoard.attacks)
      ensures Valid()
      ensures Boards() == old(Boards()) && difficulty == old(difficulty)
      ensures Snapshot() == ComputerTurn(old(Snapshot()), choices, 0)
    {
      ghost var t0 := Snapshot();
      var n := 0;
      while true
        invariant Valid() && phase == BattlePhase
        invariant Boards() == old(Boards()) && difficulty == old(difficulty)
        invariant playerBoard.attacks == old(playerBoard.attacks)
        invariant ComputerTurn(Snapshot(), choices, n) == ComputerTurn(t0, choices, 0)
        decreases Unattacked(GridOf(computerAttacks))
      {
        var choice := choices(n);
        if !CanAim(GridOf(computerAttacks), aiState, choice) {
          assert ComputerTurn(Snapshot(), choices, n) == Snapshot();
          return;
        }
        ghost var before := Snapshot();
        TurnUnfolds(before, choices, n);
        var again := ComputerMove(choice);
        n := n + 1;
        if !again {
          return;
        }
      }
    }

    /**
     * `attackComputer`: the player's shot, then, when it hands the turn
     * over, the computer's moves. Out of turn or outside the battle nothing
     * happens. Otherwise the shot is resolved on the computer's fleet and
     * marked on the player's grid alone; after a hit or a win the computer
     * stays idle, and after a miss its turn runs as `ComputerTurn` says from
     * the record the shot left.
     */
    method AttackComputer(position: Position, choices: nat -> AIChoice)
      requires Valid() && InBounds(position)
      modifies this, playerBoard, computerBoard, playerAttacks, computerAttacks
      ensures playerBoard.attacks == old(playerBoard.attacks) && computerBoard.attacks == old(computerBoard.attacks)
      ensures Valid()
      ensures Boards() == old(Boards()) && difficulty == old(difficulty)
      ensures old(phase) != BattlePhase || old(currentTurn) != HumanPlayer ==>
        && Status() == old(Status()) && aiState == old(aiState)
        && playerBoard.ships == old(playerBoard.ships) && computerBoard.ships == old(computerBoard.ships)
        && unchanged(playerAttacks) && unchanged(computerAttacks)
      ensures old(phase) == BattlePhase && old(currentTurn) == HumanPlayer ==>
        var s := ResolveAttack(position, old(computerBoard.ships), old(playerAttacks[position.row, position.col]));
        var shot := TurnState(old(playerBoard.ships), old(GridOf(computerAttacks)), old(aiState), AfterPlayerShot(old(Status()), s.result));
        && computerBoard.ships == s.ships
        && playerAttacks[position.row, position.col] == s.cell
        && (s.result.hit ==> Snapshot() == shot)
        && (!s.result.hit ==> Snapshot() == ComputerTurn(shot, choices, 0) && TurnEnds(shot, Snapshot(), choices, 0))
      ensures forall r, c ::
        0 <= r < BoardSize && 0 <= c < BoardSize && (r != position.row || c != position.col) ==>
        playerAttacks[r, c] == old(playerAttacks[r, c])
    {
      var passTurn := PlayerShot(position);
      if passTurn {
        ExecuteComputerTurn(choices);
      }
    }

    /**
     * `resetGame`: a new match in the placement phase, with new boards and
     * grids, the computer's fleet placed afresh and the counters cleared.
     * The computer is set up for the difficulty the match was created
     * with, whatever the current setting; the setting itself and the
     * message on show are kept.
     */
    method ResetGame(draws: nat -> Draw)
      modifies this
      ensures Valid()
      ensures Status() == MatchStatus(PlacementPhase, HumanPlayer, None, Tally(0, 0), Tally(0, 0), old(battleMessage))
      ensures aiState == InitializeAI(initialDifficulty) && difficulty == old(difficulty)
      ensures NewFleets(playerBoard.ships, computerBoard.ships, draws)
      ensures Blank(playerAttacks) && Blank(computerAttacks)
      ensures fresh(playerBoard) && fresh(computerBoard) && fresh(playerAttacks) && fresh(computerAttacks)
    {
      var pb, cb, pa, ca := NewMatchBoards(draws);
      InstallBoards(pb, cb, pa, ca);
    }

    /** Puts new boards and grids in place, with the record and the computer started afresh. */
    method InstallBoards(pb: PlayerBoard, cb: PlayerBoard, pa: array2<Cell>, ca: array2<Cell>)
      requires pb != cb && pa != ca && FleetOk(pb.ships) && FleetOk(cb.ships)
      requires pa.Length0 == BoardSize && pa.Length1 == BoardSize && ca.Length0 == BoardSize && ca.Length1 == BoardSize
      modifies this
      ensures Valid()
      ensures playerBoard == pb && computerBoard == cb && playerAttacks == pa && computerAttacks == ca
      ensures Status() == MatchStatus(PlacementPhase, HumanPlayer, None, Tally(0, 0), Tally(0, 0), old(battleMessage))
      ensures aiState == InitializeAI(initialDifficulty) && difficulty == old(difficulty)
    {
      NewMatchConsistent(pb.ships, cb.ships, initialDifficulty, battleMessage);
      playerBoard, computerBoard, playerAttacks, computerAttacks := pb, cb, pa, ca;
      aiState := InitializeAI(initialDifficulty);
      phase, currentTurn, winner := PlacementPhase, HumanPlayer, None;
      totalShots, hits := Tally(0, 0), Tally(0, 0);
    }
  }

  /** An array that differs from the grid `g` only at `p`, where it holds `cell`, reads as `WithCell(g, p, cell)`. */
  lemma GridAfterShot(g: seq<seq<Cell>>, a: array2<Cell>, p: Position, cell: Cell)
    requires IsGrid(g) && a.Length0 == BoardSize && a.Length1 == BoardSize && InBounds(p)
    requires a[p.row, p.col] == cell
    requires forall r, c ::
      0 <= r < BoardSize && 0 <= c < BoardSize && (r != p.row || c != p.col) ==> a[r, c] == g[r][c]
    ensures GridOf(a) == WithCell(g, p, cell)
  {
    var g' := WithCell(g, p, cell);
    forall r | 0 <= r < BoardSize
      ensures GridOf(a)[r] == g'[r]
    {
      assert forall c :: 0 <= c < BoardSize ==> GridOf(a)[r][c] == g'[r][c];
    }
  }

  /** Consulting the queue keeps it on the board and free of repeats. */
  lemma AimKeepsQueueOk(g: seq<seq<Cell>>, ai: AIState, choice: AIChoice)
    requires IsGrid(g) && CanAim(g, ai, choice) && QueueOk(ai)
    ensures QueueOk(ChooseTarget(g, ai, choice).ai)
    ensures SameSettings(ai, ChooseTarget(g, ai, choice).ai)
  {
    if FromQueue(ai, choice) {
      var q := ai.targetQueue;
      assert forall x :: x in q[1..] ==> x in q;
      assert Distinct(q[1..]) by {
        forall i, j | 0 <= i < j < |q[1..]| ensures q[1..][i] != q[1..][j] {
          assert q[1..][i] == q[i + 1] && q[1..][j] == q[j + 1];
        }
      }
    }
  }
}
