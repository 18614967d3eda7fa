/**
 * Two-player attacks: one shot at a cell of the opposing fleet, recorded on
 * the attacker's grid, and the end-of-match check.
 */
module Combat {
  import opened Types
  import opened Text
  import GameLogic

  /** One side of the match: its fleet, and a grid of the attacks it received. */
  class PlayerBoard {
    var ships: seq<TwoPlayerShip>
    var attacks: seq<seq<Cell>>

    /** `createEmptyPlayerBoard`: no ships and an empty grid. */
    constructor ()
      ensures ships == [] && attacks == GameLogic.CreateEmptyBoard()
    {
      ships := [];
      attacks := GameLogic.CreateEmptyBoard();
    }
  }

  const AlreadyAttackedMessage: string := "Already attacked this position!"
  const HitMessage: string := "Hit!"
  const MissMessage: string := "Miss!"

  /** The message for a sinking shot: the ship's name, capitalised, then " Sunk!". */
  function SunkShipMessage(name: string): string {
    Capitalize(name) + " Sunk!"
  }

  /** `ships.every(ship => ship.isSunk)`: true for an empty fleet. */
  function AllSunk(ships: seq<TwoPlayerShip>): (all: bool)
    ensures all <==> forall i :: 0 <= i < |ships| ==> ships[i].isSunk
  {
    ships == [] || (ships[0].isSunk && AllSunk(ships[1..]))
  }

  /** The cells a two-player ship covers. */
  function ShipCells(ship: TwoPlayerShip): seq<Position> {
    ship.positions
  }

  /** The fleet, the target cell of the attack grid, and the result after one shot. */
  datatype Shot = Shot(ships: seq<TwoPlayerShip>, cell: Cell, result: AttackResult)

  /** The same ship apart from its hit flags and its sunk flag. */
  predicate SameShip(a: TwoPlayerShip, b: TwoPlayerShip) {
    a == b.(hits := a.hits, isSunk := a.isSunk)
  }

  /**
   * `attackPosition` on values: the shot at `p` against `ships`, where
   * `cell` is the attacker's grid cell at `p`. A repeated shot changes
   * nothing. A fresh shot marks the cell; it hits exactly when some ship
   * covers `p`, and then the first such ship takes the hit, can only become
   * sunk, and the match is won exactly when every ship is sunk. A miss
   * never wins and leaves the fleet alone.
   */
  function ResolveAttack(p: Position, ships: seq<TwoPlayerShip>, cell: Cell): (s: Shot)
    ensures cell.isAttacked ==> s == Shot(ships, cell, AttackResult(false, None, false, AlreadyAttackedMessage))
    ensures !cell.isAttacked ==> s.cell.isAttacked && s.cell.isHit == s.result.hit
    ensures !cell.isAttacked ==> (s.result.hit <==> exists i :: 0 <= i < |ships| && p in ships[i].positions)
    ensures !s.result.hit ==> s.ships == ships && !s.result.gameWon && s.result.shipSunk == None
    ensures !cell.isAttacked && !s.result.hit ==>
      s.result.message == MissMessage && s.cell == cell.(isAttacked := true, isHit := false)
    ensures s.result.hit ==> (s.result.gameWon <==> forall i :: 0 <= i < |s.ships| ==> s.ships[i].isSunk)
    ensures |s.ships| == |ships|
    ensures forall i :: 0 <= i < |ships| ==> SameShip(ships[i], s.ships[i])
    ensures forall i :: 0 <= i < |ships| && ships[i].isSunk ==> s.ships[i].isSunk
  {
    if cell.isAttacked then
      Shot(ships, cell, AttackResult(false, None, false, AlreadyAttackedMessage))
    else
      match FirstStrike(CellsByShip(ships, ShipCells), p)
      case None =>
        Shot(ships, cell.(isAttacked := true, isHit := false), AttackResult(false, None, false, MissMessage))
      case Some(st) =>
        var ship := ships[st.shipIndex];
        var hits := MarkHit(ship.hits, st.posIndex);
        var sunk := AllTrue(hits);
        var struck := ship.(hits := hits, isSunk := sunk || ship.isSunk);
        var ships' := ships[st.shipIndex := struck];
        Shot(ships', cell.(isAttacked := true, isHit := true, shipName := Some(ship.name)),
             AttackResult(true, if sunk then Some(struck) else None, AllSunk(ships'),
                          if sunk then SunkShipMessage(ship.name) else HitMessage))
  }

  /**
   * On a fresh hit, the ship struck is the first one in fleet order that
   * covers `p`; its flag at the first index of `p` is set, it is reported
   * sunk exactly when all its flags are then set, the cell is named after
   * it, and no other ship changes.
   */
  lemma HitStrikesFirstShip(p: Position, ships: seq<TwoPlayerShip>, cell: Cell, i: nat, k: nat)
    requires !cell.isAttacked
    requires i < |ships| && k < |ships[i].positions| && ships[i].positions[k] == p
    requires forall j :: 0 <= j < i ==> p !in ships[j].positions
    requires forall m :: 0 <= m < k ==> ships[i].positions[m] != p
    ensures FirstStrike(CellsByShip(ships, ShipCells), p) == Some(Strike(i, k))
    ensures var s := ResolveAttack(p, ships, cell);
      && s.result.hit
      && s.ships[i].hits == MarkHit(ships[i].hits, k)
      && (forall j :: 0 <= j < |ships| && j != i ==> s.ships[j] == ships[j])
      && s.cell.shipName == Some(ships[i].name)
      && (s.result.shipSunk.Some? <==> forall m :: 0 <= m < |s.ships[i].hits| ==> s.ships[i].hits[m])
      && (s.result.shipSunk.Some? ==> s.result.shipSunk == Some(s.ships[i]) && s.ships[i].isSunk)
      && (s.result.shipSunk.Some? ==> s.result.message == SunkShipMessage(ships[i].name))
      && (s.result.shipSunk.None? ==> s.result.message == HitMessage)
  {
    var st := FirstStrike(CellsByShip(ships, ShipCells), p);
    assert p in CellsByShip(ships, ShipCells)[i];
    assert st.Some?;
    assert st.value.shipIndex == i;
    assert st.value.posIndex == k;
  }

  /** Each ship's sunk flag says whether all its hit flags are set. */
  predicate SunkTracksHits(ships: seq<TwoPlayerShip>) {
    forall i :: 0 <= i < |ships| ==> ships[i].isSunk == AllTrue(ships[i].hits)
  }

  /** A shot keeps every sunk flag in step with the hit flags. */
  lemma AttackKeepsSunkTracksHits(p: Position, ships: seq<TwoPlayerShip>, cell: Cell)
    requires SunkTracksHits(ships)
    ensures SunkTracksHits(ResolveAttack(p, ships, cell).ships)
  {
    var s := ResolveAttack(p, ships, cell);
    if !cell.isAttacked && s.result.hit {
      var st := FirstStrike(CellsByShip(ships, ShipCells), p).value;
      var ship := ships[st.shipIndex];
      var hits := MarkHit(ship.hits, st.posIndex);
      if ship.isSunk {
        assert AllTrue(hits) by {
          forall m | 0 <= m < |hits| ensures hits[m] {
            if m < |ship.hits| && m != st.posIndex {
              assert ship.hits[m];
            }
          }
        }
      }
    }
  }

  /**
   * `attackPosition`: the attacker's grid `attackBoard` and the target's
   * fleet are updated in place as `ResolveAttack` says; no other grid cell
   * changes. A cell off the grid is outside what the code handles.
   */
  method AttackPosition(position: Position, targetBoard: PlayerBoard, attackBoard: array2<Cell>)
    returns (result: AttackResult)
    requires 0 <= position.row < attackBoard.Length0 && 0 <= position.col < attackBoard.Length1
    modifies targetBoard, attackBoard
    ensures var s := ResolveAttack(position, old(targetBoard.ships), old(attackBoard[position.row, position.col]));
      && result == s.result
      && targetBoard.ships == s.ships
      && attackBoard[position.row, position.col] == s.cell
    ensures targetBoard.attacks == old(targetBoard.attacks)
    ensures forall r, c ::
      0 <= r < attackBoard.Length0 && 0 <= c < attackBoard.Length1 && (r != position.row || c != position.col) ==>
      attackBoard[r, c] == old(attackBoard[r, c])
  {
    var row, col := position.row, position.col;
    if attackBoard[row, col].isAttacked {
      return AttackResult(false, None, false, AlreadyAttackedMessage);
    }
    attackBoard[row, col] := attackBoard[row, col].(isAttacked := true);

    var ships := targetBoard.ships;
    var hitShip: Option<nat> := None;
    var hitPositionIndex := -1;
    var i := 0;
    while i < |ships|
      invariant 0 <= i <= |ships|
      invariant forall j :: 0 <= j < i ==> position !in ships[j].positions
    {
      var posIndex := FindIndex(ships[i].positions, position);
      if posIndex != -1 {
        hitShip, hitPositionIndex := Some(i), posIndex;
        break;
      }
      i := i + 1;
    }

    if hitShip.Some? {
      var k := hitShip.value;
      HitStrikesFirstShip(position, ships, old(attackBoard[row, col]), k, hitPositionIndex);
      var ship := ships[k];
      var hits := MarkHit(ship.hits, hitPositionIndex);
      attackBoard[row, col] := attackBoard[row, col].(isHit := true, shipName := Some(ship.name));
      var isSunk := AllTrue(hits);
      ship := ship.(hits := hits, isSunk := if isSunk then true else ship.isSunk);
      targetBoard.ships := ships[k := ship];
      var gameWon := AllSunk(targetBoard.ships);
      result := AttackResult(true, if isSunk then Some(ship) else None, gameWon,
                             if isSunk then SunkShipMessage(ship.name) else HitMessage);
    } else {
      attackBoard[row, col] := attackBoard[row, col].(isHit := false);
      result := AttackResult(false, None, false, MissMessage);
    }
  }

  /** The verdict of `checkGameOver`. */
  datatype GameOver = GameOver(isGameOver: bool, winner: Option<Player>)

  /**
   * `checkGameOver`: the computer wins when every player ship is sunk (an
   * empty fleet counts), and this is checked first; otherwise the player
   * wins when every computer ship is sunk; otherwise the match goes on.
   */
  function CheckGameOver(playerBoard: PlayerBoard, computerBoard: PlayerBoard): (r: GameOver)
    reads playerBoard, computerBoard
    ensures r.isGameOver <==> r.winner.Some?
    ensures r.winner == Some(Computer) <==> forall i :: 0 <= i < |playerBoard.ships| ==> playerBoard.ships[i].isSunk
    ensures r.winner == Some(HumanPlayer) <==>
      && (exists i :: 0 <= i < |playerBoard.ships| && !playerBoard.ships[i].isSunk)
      && (forall i :: 0 <= i < |computerBoard.ships| ==> computerBoard.ships[i].isSunk)
  {
    if AllSunk(playerBoard.ships) then GameOver(true, Some(Computer))
    else if AllSunk(computerBoard.ships) then GameOver(true, Some(HumanPlayer))
    else GameOver(false, None)
  }
}
