/**
 * The game's data model: board cells, ships of both game modes, the
 * two-player enumerations and the computer opponent's state, together with
 * the fixed configuration (board size and fleet table).
 */
module Types {

  datatype Option<+T> = None | Some(value: T)

  /** Side length of the square board. */
  const BoardSize: nat := 10

  datatype Position = Position(row: int, col: int)

  predicate InBounds(p: Position) {
    0 <= p.row < BoardSize && 0 <= p.col < BoardSize
  }

  /** No element occurs twice. */
  predicate Distinct<T(==)>(q: seq<T>) {
    forall i, j :: 0 <= i < j < |q| ==> q[i] != q[j]
  }

  /** The concatenation of `xss`, in order. */
  function Flatten<T>(xss: seq<seq<T>>): seq<T>
    decreases |xss|
  {
    if xss == [] then [] else Flatten(xss[..|xss| - 1]) + xss[|xss| - 1]
  }

  lemma FlattenSnoc<T>(xss: seq<seq<T>>, j: nat)
    requires j < |xss|
    ensures Flatten(xss[..j + 1]) == Flatten(xss[..j]) + xss[j]
  {
    assert xss[..j + 1][..j] == xss[..j];
  }

  lemma {:induction false} FlattenMember<T>(xss: seq<seq<T>>, e: T)
    ensures e in Flatten(xss) <==> exists i :: 0 <= i < |xss| && e in xss[i]
    decreases |xss|
  {
    if xss != [] {
      var n := |xss| - 1;
      var front := xss[..n];
      FlattenMember(front, e);
      if e in Flatten(front) {
        var i :| 0 <= i < |front| && e in front[i];
        assert front[i] == xss[i];
      }
      if exists i :: 0 <= i < |xss| && e in xss[i] {
        var i :| 0 <= i < |xss| && e in xss[i];
        if i < n {
          assert front[i] == xss[i];
        }
      }
    }
  }

  lemma {:induction false} FlattenEmpty<T>(xss: seq<seq<T>>)
    ensures Flatten(xss) == [] <==> forall i :: 0 <= i < |xss| ==> xss[i] == []
    decreases |xss|
  {
    if xss != [] {
      var n := |xss| - 1;
      var front := xss[..n];
      FlattenEmpty(front);
      assert forall i :: 0 <= i < n ==> front[i] == xss[i];
    }
  }

  /** `findIndex` for a cell, or `indexOf`: the first index of `x` in `xs`, or -1. */
  function FindIndex<T(==)>(xs: seq<T>, x: T): (k: int)
    ensures -1 <= k < |xs|
    ensures k == -1 <==> x !in xs
    ensures k >= 0 ==> xs[k] == x && forall j :: 0 <= j < k ==> xs[j] != x
  {
    if xs == [] then -1
    else if xs[0] == x then 0
    else
      var k := FindIndex(xs[1..], x);
      if k == -1 then -1 else k + 1
  }

  /** Where a shot lands: the ship's index in its fleet and the index of the cell in the ship. */
  datatype Strike = Strike(shipIndex: nat, posIndex: nat)

  /** The cells of each ship, in fleet order, as `cellsOf` reads them off a ship. */
  function CellsByShip<S>(ships: seq<S>, cellsOf: S -> seq<Position>): (q: seq<seq<Position>>)
    ensures |q| == |ships| && forall i :: 0 <= i < |ships| ==> q[i] == cellsOf(ships[i])
  {
    seq(|ships|, i requires 0 <= i < |ships| => cellsOf(ships[i]))
  }

  /**
   * The search loop of both attack functions: the first ship (in fleet order)
   * whose positions contain `p`, and the first index of `p` in that ship.
   */
  function FirstStrike(fleet: seq<seq<Position>>, p: Position): (r: Option<Strike>)
    ensures r.None? <==> forall i :: 0 <= i < |fleet| ==> p !in fleet[i]
    ensures r.Some? ==>
      && r.value.shipIndex < |fleet|
      && r.value.posIndex < |fleet[r.value.shipIndex]|
      && fleet[r.value.shipIndex][r.value.posIndex] == p
      && (forall i :: 0 <= i < r.value.shipIndex ==> p !in fleet[i])
      && (forall k :: 0 <= k < r.value.posIndex ==> fleet[r.value.shipIndex][k] != p)
  {
    if fleet == [] then None
    else
      var k := FindIndex(fleet[0], p);
      if k >= 0 then Some(Strike(0, k))
      else
        match FirstStrike(fleet[1..], p)
        case None => None
        case Some(s) => Some(Strike(s.shipIndex + 1, s.posIndex))
  }

  /** `every` over a sequence of flags. */
  function AllTrue(bs: seq<bool>): (r: bool)
    ensures r <==> forall k :: 0 <= k < |bs| ==> bs[k]
  {
    bs == [] || (bs[0] && AllTrue(bs[1..]))
  }

  /** `new Array(n).fill(false)`. */
  function Falses(n: nat): (bs: seq<bool>)
    ensures |bs| == n && forall k :: 0 <= k < n ==> !bs[k]
  {
    seq(n, _ => false)
  }

  /**
   * `hits[k] = true` on a JavaScript array. Writing past the end extends the
   * array; the holes this leaves are skipped by `every`, so they are modelled
   * as `true` here.
   */
  function MarkHit(hits: seq<bool>, k: nat): (r: seq<bool>)
    ensures |r| == if k < |hits| then |hits| else k + 1
    ensures r[k]
    ensures forall j :: 0 <= j < |hits| && j != k ==> r[j] == hits[j]
  {
    if k < |hits| then hits[k := true] else hits + seq(k + 1 - |hits|, _ => true)
  }

  /** One cell of a board or of an attack grid. */
  datatype Cell = Cell(isAttacked: bool, isHit: bool, shipName: Option<string>)

  const EmptyCell: Cell := Cell(false, false, None)

  /** A single-player ship: `hits` runs parallel to `positions`. */
  datatype Ship = Ship(name: string, positions: seq<Position>, hits: seq<bool>, isSunk: bool)

  datatype GameStatus = Playing | Won

  /** Single-player game state; `board` is a grid of rows. */
  datatype GameState = GameState(
    board: seq<seq<Cell>>,
    ships: seq<Ship>,
    gameStatus: GameStatus,
    totalShots: int,
    hits: int)

  /** One entry of a static layout: coordinates are arrays, hence `seq<int>`. */
  datatype ShipLayout = ShipLayout(ship: string, positions: seq<seq<int>>)

  datatype ShipType = ShipType(name: string, size: nat, count: nat)

  /** The fleet table, in declaration order. */
  const ShipTypes: seq<ShipType> := [
    ShipType("carrier", 5, 1),
    ShipType("battleship", 4, 1),
    ShipType("cruiser", 3, 1),
    ShipType("submarine", 3, 1),
    ShipType("destroyer", 2, 1)
  ]

  datatype GamePhase = PlacementPhase | BattlePhase | GameOverPhase
  datatype Player = HumanPlayer | Computer
  datatype Orientation = Horizontal | Vertical

  function Flip(o: Orientation): (r: Orientation)
    ensures r != o
  {
    if o == Horizontal then Vertical else Horizontal
  }

  /** A two-player ship: unplaced ships have no positions. */
  datatype TwoPlayerShip = TwoPlayerShip(
    name: string,
    positions: seq<Position>,
    hits: seq<bool>,
    isSunk: bool,
    orientation: Orientation,
    isPlaced: bool,
    size: nat)

  datatype PlacementValidation = PlacementValidation(
    isValid: bool,
    canPlace: bool,
    errorMessage: Option<string>,
    conflictingPositions: Option<seq<Position>>)

  datatype Difficulty = Easy | Medium | Hard
  datatype Strategy = RandomStrategy | SmartStrategy

  /**
   * The computer opponent's state. `hitProbability` is kept as a percentage
   * (30, 70, 90), since the model never compares it with a random number.
   */
  datatype AIState = AIState(
    targetQueue: seq<Position>,
    lastHit: Option<Position>,
    huntMode: bool,
    shipSizes: seq<int>,
    strategy: Strategy,
    difficulty: Difficulty,
    hitProbabilityPercent: nat,
    smartTargeting: bool,
    delayBetweenMoves: nat)

  /** The outcome of a two-player attack on one cell. */
  datatype AttackResult = AttackResult(
    hit: bool,
    shipSunk: Option<TwoPlayerShip>,
    gameWon: bool,
    message: string)
}
