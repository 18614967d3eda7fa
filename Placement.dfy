/**
 * Two-player setup and placement: ship templates, the run of cells a ship
 * covers, the placement check, manual placement, removal, rotation and
 * automatic placement.
 */
module Placement {

  import opened Types

  // ---------------------------------------------------------------------------
  // Templates

  /** A ship not yet on the board: no cells, every flag clear, afloat. */
  function CreateShipTemplate(name: string, size: nat, orientation: Orientation): (s: TwoPlayerShip)
    ensures s.name == name && s.size == size && s.orientation == orientation
    ensures !s.isPlaced && s.positions == [] && !s.isSunk
    ensures s.hits == Falses(size)
  {
    TwoPlayerShip(name, [], Falses(size), false, orientation, false, size)
  }

  /** One horizontal template per entry of the fleet table, in table order. */
  function FleetTemplates(): (ships: seq<TwoPlayerShip>)
    ensures |ships| == |ShipTypes|
    ensures forall i :: 0 <= i < |ships| ==>
      ships[i] == CreateShipTemplate(ShipTypes[i].name, ShipTypes[i].size, Horizontal)
  {
    seq(|ShipTypes|, i requires 0 <= i < |ShipTypes| =>
      CreateShipTemplate(ShipTypes[i].name, ShipTypes[i].size, Horizontal))
  }

  /** No two ships share a name. */
  predicate DistinctNames(ships: seq<TwoPlayerShip>) {
    forall i, j :: 0 <= i < j < |ships| ==> ships[i].name != ships[j].name
  }

  lemma FleetTemplatesDistinct()
    ensures DistinctNames(FleetTemplates())
    ensures !AllShipsPlaced(FleetTemplates())
  {
    var ships := FleetTemplates();
    assert !ships[0].isPlaced;
  }

  // ---------------------------------------------------------------------------
  // Runs of cells

  /** The `size` cells from `start`, along +col when horizontal and +row when vertical. */
  function Run(start: Position, size: nat, o: Orientation): (ps: seq<Position>)
    ensures |ps| == size
  {
    seq(size, i => if o == Horizontal then Position(start.row, start.col + i) else Position(start.row + i, start.col))
  }

  /** All of `ps` lies on the board. */
  predicate OnBoard(ps: seq<Position>) {
    forall i :: 0 <= i < |ps| ==> InBounds(ps[i])
  }

  /** A run is a straight line of distinct cells starting at its anchor. */
  lemma RunShape(start: Position, size: nat, o: Orientation)
    ensures Distinct(Run(start, size, o))
    ensures size > 0 ==> Run(start, size, o)[0] == start
    ensures forall i :: 0 <= i < size ==>
      (o == Horizontal ==> Run(start, size, o)[i].row == start.row) &&
      (o == Vertical ==> Run(start, size, o)[i].col == start.col)
  {
  }

  /** A run lies on the board exactly when its first and its last cell do. */
  lemma RunOnBoard(start: Position, size: nat, o: Orientation)
    requires size > 0
    ensures OnBoard(Run(start, size, o)) <==>
      InBounds(start) && InBounds(Run(start, size, o)[size - 1])
  {
    var run := Run(start, size, o);
    assert run[0] == start;
    if InBounds(start) && InBounds(run[size - 1]) {
      forall i | 0 <= i < size ensures InBounds(run[i]) {
      }
    }
  }

  lemma RunSnoc(start: Position, n: nat, o: Orientation)
    ensures Run(start, n + 1, o) == Run(start, n, o) + [Run(start, n + 1, o)[n]]
  {
  }

  /** `generateShipPositions`: the run, built one cell at a time. */
  method GenerateShipPositions(startPos: Position, size: nat, orientation: Orientation)
    returns (positions: seq<Position>)
    ensures positions == Run(startPos, size, orientation)
  {
    positions := [];
    var i := 0;
    while i < size
      invariant 0 <= i <= size
      invariant positions == Run(startPos, i, orientation)
    {
      var newPos := if orientation == Horizontal then Position(startPos.row, startPos.col + i)
                    else Position(startPos.row + i, startPos.col);
      RunSnoc(startPos, i, orientation);
      positions := positions + [newPos];
      i := i + 1;
    }
  }

  // ---------------------------------------------------------------------------
  // The placement check

  /** Some placed ship covers `p`. */
  predicate Occupied(ships: seq<TwoPlayerShip>, p: Position) {
    exists i :: 0 <= i < |ships| && ships[i].isPlaced && p in ships[i].positions
  }

  /** The cells of `run` that a placed ship covers, in run order. */
  function Conflicts(ships: seq<TwoPlayerShip>, run: seq<Position>): (cs: seq<Position>)
    ensures |cs| <= |run|
    ensures forall p :: p in cs <==> p in run && Occupied(ships, p)
    decreases |run|
  {
    if run == [] then []
    else
      var last := run[|run| - 1];
      Conflicts(ships, run[..|run| - 1]) + (if Occupied(ships, last) then [last] else [])
  }

  lemma ConflictsSnoc(ships: seq<TwoPlayerShip>, run: seq<Position>, i: nat)
    requires i < |run|
    ensures Conflicts(ships, run[..i + 1]) ==
      Conflicts(ships, run[..i]) + (if Occupied(ships, run[i]) then [run[i]] else [])
  {
    assert run[..i + 1][..i] == run[..i];
  }

  const OutsideMessage: string := "Ship extends outside the board"
  const OverlapMessage: string := "Ship overlaps with existing ship"

  /**
   * `canPlaceShip`: the run is checked against the board's edges first, and
   * only then against the cells of placed ships; a run that fits has no
   * conflicts.
   */
  function CheckPlacement(ships: seq<TwoPlayerShip>, start: Position, size: nat, o: Orientation)
    : (v: PlacementValidation)
    ensures v.canPlace == v.isValid
    ensures v.canPlace <==>
      OnBoard(Run(start, size, o)) && forall p :: p in Run(start, size, o) ==> !Occupied(ships, p)
    ensures !OnBoard(Run(start, size, o)) ==>
      v.errorMessage == Some(OutsideMessage) && v.conflictingPositions == None
    ensures OnBoard(Run(start, size, o)) && !v.canPlace ==>
      && v.errorMessage == Some(OverlapMessage)
      && v.conflictingPositions.Some?
      && v.conflictingPositions.value != []
      && forall p :: p in v.conflictingPositions.value <==> p in Run(start, size, o) && Occupied(ships, p)
    ensures v.canPlace ==> v.errorMessage == None && v.conflictingPositions == None
  {
    var run := Run(start, size, o);
    if !OnBoard(run) then
      PlacementValidation(false, false, Some(OutsideMessage), None)
    else
      var cs := Conflicts(ships, run);
      if cs != [] then
        assert cs[0] in cs;
        PlacementValidation(false, false, Some(OverlapMessage), Some(cs))
      else
        assert forall p :: p in run ==> !Occupied(ships, p) by {
          forall p | p in run ensures !Occupied(ships, p) {
            assert p !in cs;
          }
        }
        PlacementValidation(true, true, None, None)
  }

  /** The run from `start` fits: on the board and clear of every placed ship. */
  predicate Fits(ships: seq<TwoPlayerShip>, start: Position, size: nat, o: Orientation) {
    OnBoard(Run(start, size, o)) && forall p :: p in Run(start, size, o) ==> !Occupied(ships, p)
  }

  /** `canPlaceShip`, loop by loop: generate the run, check the edges, collect conflicts. */
  method CanPlaceShip(ships: seq<TwoPlayerShip>, startPos: Position, shipSize: nat, orientation: Orientation)
    returns (v: PlacementValidation)
    ensures v == CheckPlacement(ships, startPos, shipSize, orientation)
  {
    var positions := GenerateShipPositions(startPos, shipSize, orientation);
    var i := 0;
    while i < |positions|
      invariant 0 <= i <= |positions|
      invariant forall j :: 0 <= j < i ==> InBounds(positions[j])
    {
      var pos := positions[i];
      if pos.row < 0 || pos.row >= BoardSize || pos.col < 0 || pos.col >= BoardSize {
        return PlacementValidation(false, false, Some(OutsideMessage), None);
      }
      i := i + 1;
    }
    var conflictingPositions := [];
    i := 0;
    while i < |positions|
      invariant 0 <= i <= |positions|
      invariant conflictingPositions == Conflicts(ships, positions[..i])
    {
      var pos := positions[i];
      var hasShip := Occupied(ships, pos);
      ConflictsSnoc(ships, positions, i);
      if hasShip {
        conflictingPositions := conflictingPositions + [pos];
      }
      i := i + 1;
    }
    assert positions[..i] == positions;
    if |conflictingPositions| > 0 {
      return PlacementValidation(false, false, Some(OverlapMessage), Some(conflictingPositions));
    }
    return PlacementValidation(true, true, None, None);
  }

  // ---------------------------------------------------------------------------
  // Placing, removing, rotating

  /** `ship` put on the board from `start`: its cells regenerated from its size, its flags cleared. */
  function Placed(ship: TwoPlayerShip, start: Position, o: Orientation): TwoPlayerShip {
    ship.(positions := Run(start, ship.size, o), orientation := o, isPlaced := true, hits := Falses(ship.size))
  }

  /** `ship` taken off the board; it keeps its orientation. */
  function Removed(ship: TwoPlayerShip): TwoPlayerShip {
    ship.(positions := [], isPlaced := false, hits := Falses(ship.size))
  }

  /**
   * `placeShip`: every ship named `shipName` is put on the board from
   * `startPos`, without any check; the others are untouched.
   */
  function PlaceShip(ships: seq<TwoPlayerShip>, shipName: string, startPos: Position, orientation: Orientation)
    : (r: seq<TwoPlayerShip>)
    ensures |r| == |ships|
    ensures forall i :: 0 <= i < |ships| && ships[i].name != shipName ==> r[i] == ships[i]
    ensures forall i :: 0 <= i < |ships| && ships[i].name == shipName ==>
      && r[i].isPlaced && r[i].orientation == orientation
      && r[i].positions == Run(startPos, ships[i].size, orientation)
      && r[i].hits == Falses(ships[i].size)
      && r[i].name == ships[i].name && r[i].size == ships[i].size && r[i].isSunk == ships[i].isSunk
  {
    seq(|ships|, i requires 0 <= i < |ships| =>
      if ships[i].name == shipName then Placed(ships[i], startPos, orientation) else ships[i])
  }

  /** `removeShipFromBoard`: every ship named `shipName` leaves the board; the others are untouched. */
  function RemoveShipFromBoard(ships: seq<TwoPlayerShip>, shipName: string): (r: seq<TwoPlayerShip>)
    ensures |r| == |ships|
    ensures forall i :: 0 <= i < |ships| && ships[i].name != shipName ==> r[i] == ships[i]
    ensures forall i :: 0 <= i < |ships| && ships[i].name == shipName ==>
      && !r[i].isPlaced && r[i].positions == [] && r[i].hits == Falses(ships[i].size)
      && r[i].name == ships[i].name && r[i].size == ships[i].size
      && r[i].orientation == ships[i].orientation && r[i].isSunk == ships[i].isSunk
  {
    seq(|ships|, i requires 0 <= i < |ships| => if ships[i].name == shipName then Removed(ships[i]) else ships[i])
  }

  /** Removing a ship just placed gives back the unplaced template it was. */
  lemma {:induction false} RemoveUndoesPlace(ships: seq<TwoPlayerShip>, name: string, start: Position, o: Orientation)
    requires forall i :: 0 <= i < |ships| && ships[i].name == name ==>
      ships[i] == CreateShipTemplate(name, ships[i].size, o)
    ensures RemoveShipFromBoard(PlaceShip(ships, name, start, o), name) == ships
  {
    var r := RemoveShipFromBoard(PlaceShip(ships, name, start, o), name);
    assert |r| == |ships|;
    forall i | 0 <= i < |ships| ensures r[i] == ships[i] {
    }
  }

  /** `allShipsPlaced`. */
  function AllShipsPlaced(ships: seq<TwoPlayerShip>): (all: bool)
    ensures all <==> forall i :: 0 <= i < |ships| ==> ships[i].isPlaced
  {
    ships == [] || (ships[0].isPlaced && AllShipsPlaced(ships[1..]))
  }

  /** The ships not named `name`, in order. */
  function Others(ships: seq<TwoPlayerShip>, name: string): (r: seq<TwoPlayerShip>)
    ensures forall s :: s in r <==> s in ships && s.name != name
    decreases |ships|
  {
    if ships == [] then []
    else (if ships[0].name != name then [ships[0]] else []) + Others(ships[1..], name)
  }

  /** Every placed ship named `name` has an anchor cell. */
  predicate Anchored(ships: seq<TwoPlayerShip>, name: string) {
    forall i :: 0 <= i < |ships| && ships[i].name == name && ships[i].isPlaced ==> ships[i].positions != []
  }

  /** One ship of the fleet under `rotateShip`. */
  function Rotated(ships: seq<TwoPlayerShip>, name: string, ship: TwoPlayerShip): TwoPlayerShip
    requires ship.name == name && ship.isPlaced ==> ship.positions != []
  {
    if ship.name == name && ship.isPlaced then
      var o := Flip(ship.orientation);
      var anchor := ship.positions[0];
      if Fits(Others(ships, name), anchor, ship.size, o) then
        ship.(orientation := o, positions := Run(anchor, ship.size, o))
      else ship
    else ship
  }

  /**
   * `rotateShip`: a placed ship named `shipName` turns about its anchor when
   * the turned run fits among the other ships; its hit flags are kept.
   * Anything else is left as it was.
   */
  function RotateShip(ships: seq<TwoPlayerShip>, shipName: string): (r: seq<TwoPlayerShip>)
    requires Anchored(ships, shipName)
    ensures |r| == |ships|
    ensures forall i :: 0 <= i < |ships| && (ships[i].name != shipName || !ships[i].isPlaced) ==> r[i] == ships[i]
    ensures forall i :: 0 <= i < |ships| && ships[i].name == shipName && ships[i].isPlaced ==>
      var o := Flip(ships[i].orientation);
      var anchor := ships[i].positions[0];
      && (Fits(Others(ships, shipName), anchor, ships[i].size, o) ==>
            r[i] == ships[i].(orientation := o, positions := Run(anchor, ships[i].size, o)))
      && (!Fits(Others(ships, shipName), anchor, ships[i].size, o) ==> r[i] == ships[i])
  {
    seq(|ships|, i requires 0 <= i < |ships| => Rotated(ships, shipName, ships[i]))
  }

  // ---------------------------------------------------------------------------
  // A fleet laid out on the board

  /** No cell of `a` is a cell of `b`. */
  predicate Apart(a: TwoPlayerShip, b: TwoPlayerShip) {
    forall p :: p in a.positions ==> p !in b.positions
  }

  /** Every placed ship lies on the board and no two placed ships share a cell. */
  predicate LaidOut(ships: seq<TwoPlayerShip>) {
    && (forall i :: 0 <= i < |ships| && ships[i].isPlaced ==> OnBoard(ships[i].positions))
    && (forall i, j :: 0 <= i < |ships| && 0 <= j < |ships| && i != j && ships[i].isPlaced && ships[j].isPlaced ==>
          Apart(ships[i], ships[j]))
  }

  /** A run that fits is apart from every placed ship. */
  lemma FitsApart(ships: seq<TwoPlayerShip>, ship: TwoPlayerShip, start: Position, o: Orientation, j: nat)
    requires Fits(ships, start, ship.size, o)
    requires j < |ships| && ships[j].isPlaced
    ensures OnBoard(Placed(ship, start, o).positions)
    ensures Apart(Placed(ship, start, o), ships[j]) && Apart(ships[j], Placed(ship, start, o))
  {
    forall p | p in ships[j].positions ensures p !in Placed(ship, start, o).positions {
      assert Occupied(ships, p);
    }
  }

  /**
   * Placing a ship where the check against the whole fleet succeeded keeps
   * the fleet laid out (names are distinct, so exactly one ship moves).
   */
  lemma PlaceKeepsLaidOut(ships: seq<TwoPlayerShip>, name: string, start: Position, o: Orientation, k: nat)
    requires LaidOut(ships) && DistinctNames(ships)
    requires k < |ships| && ships[k].name == name
    requires Fits(ships, start, ships[k].size, o)
    ensures LaidOut(PlaceShip(ships, name, start, o))
  {
    var r := PlaceShip(ships, name, start, o);
    assert r == ships[k := Placed(ships[k], start, o)];
    forall j | 0 <= j < |ships| && j != k && ships[j].isPlaced
      ensures Apart(r[k], r[j]) && Apart(r[j], r[k])
    {
      FitsApart(ships, ships[k], start, o, j);
    }
  }

  lemma RemoveKeepsLaidOut(ships: seq<TwoPlayerShip>, name: string)
    requires LaidOut(ships)
    ensures LaidOut(RemoveShipFromBoard(ships, name))
  {
  }

  lemma OthersIndex(ships: seq<TwoPlayerShip>, name: string, j: nat)
    requires j < |ships| && ships[j].name != name
    ensures ships[j] in Others(ships, name)
  {
  }

  /** Rotation keeps a fleet with distinct names laid out. */
  lemma RotateKeepsLaidOut(ships: seq<TwoPlayerShip>, name: string)
    requires LaidOut(ships) && DistinctNames(ships) && Anchored(ships, name)
    ensures LaidOut(RotateShip(ships, name))
  {
    var r := RotateShip(ships, name);
    forall k | 0 <= k < |ships| && ships[k].name == name && ships[k].isPlaced && r[k] != ships[k]
      ensures OnBoard(r[k].positions)
      ensures forall j :: 0 <= j < |ships| && j != k && r[j].isPlaced ==> Apart(r[k], r[j]) && Apart(r[j], r[k])
    {
      var o := Flip(ships[k].orientation);
      var anchor := ships[k].positions[0];
      var others := Others(ships, name);
      assert Fits(others, anchor, ships[k].size, o);
      assert r[k] == Placed(ships[k], anchor, o).(hits := ships[k].hits);
      forall j | 0 <= j < |ships| && j != k && r[j].isPlaced
        ensures Apart(r[k], r[j]) && Apart(r[j], r[k])
      {
        assert ships[j].name != name;
        assert r[j] == ships[j];
        OthersIndex(ships, name, j);
        var m :| 0 <= m < |others| && others[m] == ships[j];
        FitsApart(others, ships[k], anchor, o, m);
      }
    }
  }

  /** The ship named `name` lies where its anchor, size and orientation put it. */
  predicate Straight(ship: TwoPlayerShip) {
    ship.positions != [] && ship.positions == Run(ship.positions[0], ship.size, ship.orientation)
  }

  /**
   * Rotating a straight ship whose current place fits among the others, and
   * rotating it back, restores the fleet.
   */
  lemma RotateTwice(ships: seq<TwoPlayerShip>, name: string, k: nat)
    requires DistinctNames(ships)
    requires k < |ships| && ships[k].name == name && ships[k].isPlaced && Straight(ships[k])
    requires Fits(Others(ships, name), ships[k].positions[0], ships[k].size, ships[k].orientation)
    ensures Anchored(RotateShip(ships, name), name)
    ensures RotateShip(RotateShip(ships, name), name) == ships
  {
    var r := RotateShip(ships, name);
    assert forall j :: 0 <= j < |ships| && j != k ==> ships[j].name != name;
    assert Others(r, name) == Others(ships, name) by {
      OthersSame(ships, r, name);
    }
    var anchor := ships[k].positions[0];
    RunShape(anchor, ships[k].size, Flip(ships[k].orientation));
    assert Anchored(r, name);
    var rr := RotateShip(r, name);
    forall j | 0 <= j < |ships| ensures rr[j] == ships[j] {
      if j == k {
        RunShape(anchor, ships[k].size, ships[k].orientation);
      }
    }
  }

  /** Changing only ships named `name` leaves the others' list alone. */
  lemma {:induction false} OthersSame(a: seq<TwoPlayerShip>, b: seq<TwoPlayerShip>, name: string)
    requires |a| == |b|
    requires forall j :: 0 <= j < |a| ==> (a[j].name == name <==> b[j].name == name)
    requires forall j :: 0 <= j < |a| && a[j].name != name ==> a[j] == b[j]
    ensures Others(a, name) == Others(b, name)
    decreases |a|
  {
    if a != [] {
      OthersSame(a[1..], b[1..], name);
    }
  }

  // ---------------------------------------------------------------------------
  // Automatic placement

  /** One random draw of a start cell and an orientation. */
  datatype Draw = Draw(start: Position, orientation: Orientation)

  /** Random draws tried for each ship before the systematic scan. */
  const MaxAttempts: nat := 1000

  /** The orientation the scan tries `k`-th at each cell: horizontal, then vertical. */
  function ScanOrientation(k: nat): Orientation {
    if k == 0 then Horizontal else Vertical
  }

  /**
   * The first slot, from cell (`row`, `col`) and orientation `k` on, in
   * the scan's order (rows outermost, then columns, then orientations)
   * that `fit` accepts.
   */
  function ScanFrom(fit: (Position, Orientation) -> bool, row: nat, col: nat, k: nat): (r: Option<Draw>)
    requires col <= BoardSize && k <= 2
    ensures r.Some? ==> InBounds(r.value.start) && fit(r.value.start, r.value.orientation)
    decreases BoardSize - row, BoardSize - col, 2 - k
  {
    if row >= BoardSize then None
    else if col == BoardSize then ScanFrom(fit, row + 1, 0, 0)
    else if k == 2 then ScanFrom(fit, row, col + 1, 0)
    else if fit(Position(row, col), ScanOrientation(k)) then
      Some(Draw(Position(row, col), ScanOrientation(k)))
    else ScanFrom(fit, row, col, k + 1)
  }

  /** The slot where the whole scan places a ship of `size`. */
  function FirstSlot(ships: seq<TwoPlayerShip>, size: nat): Option<Draw> {
    ScanFrom(FitsFor(ships, size), 0, 0, 0)
  }

  /** The placement check against `ships` for a ship of `size`, as a function of the slot. */
  function FitsFor(ships: seq<TwoPlayerShip>, size: nat): (fit: (Position, Orientation) -> bool)
    ensures forall p, o :: fit(p, o) == Fits(ships, p, size, o)
  {
    (p, o) => Fits(ships, p, size, o)
  }

  lemma FirstSlotFits(ships: seq<TwoPlayerShip>, size: nat)
    ensures var f := FirstSlot(ships, size);
      f.Some? ==> InBounds(f.value.start) && Fits(ships, f.value.start, size, f.value.orientation)
  {
  }

  /** Slot (`r`, `c`, `kk`) is on the board and comes no earlier than (`row`, `col`, `k`). */
  predicate NotBefore(row: nat, col: nat, k: nat, r: nat, c: nat, kk: nat) {
    && r < BoardSize && c < BoardSize && kk < 2
    && (r > row || (r == row && (c > col || (c == col && kk >= k))))
  }

  /** No start cell on the board and no orientation fits. */
  predicate NoSlot(ships: seq<TwoPlayerShip>, size: nat) {
    forall r, c, o :: 0 <= r < BoardSize && 0 <= c < BoardSize ==> !Fits(ships, Position(r, c), size, o)
  }

  /** The scan from a slot finds nothing exactly when no later slot fits. */
  lemma {:induction false} ScanFromNone(fit: (Position, Orientation) -> bool, row: nat, col: nat, k: nat)
    requires col <= BoardSize && k <= 2
    ensures ScanFrom(fit, row, col, k) == None <==>
      forall r: nat, c: nat, kk: nat :: NotBefore(row, col, k, r, c, kk) ==>
        !fit(Position(r, c), ScanOrientation(kk))
    decreases BoardSize - row, BoardSize - col, 2 - k
  {
    if row >= BoardSize {
    } else if col == BoardSize {
      ScanFromNone(fit, row + 1, 0, 0);
      assert forall r: nat, c: nat, kk: nat :: NotBefore(row, col, k, r, c, kk) <==> NotBefore(row + 1, 0, 0, r, c, kk);
    } else if k == 2 {
      ScanFromNone(fit, row, col + 1, 0);
      assert forall r: nat, c: nat, kk: nat :: NotBefore(row, col, k, r, c, kk) <==> NotBefore(row, col + 1, 0, r, c, kk);
    } else if !fit(Position(row, col), ScanOrientation(k)) {
      ScanFromNone(fit, row, col, k + 1);
      assert forall r: nat, c: nat, kk: nat :: NotBefore(row, col, k, r, c, kk) <==>
        NotBefore(row, col, k + 1, r, c, kk) || (r == row && c == col && kk == k);
    } else {
      assert NotBefore(row, col, k, row, col, k);
    }
  }

  /** The scan finds nothing exactly when no slot on the board fits. */
  lemma FirstSlotNoneIffNoSlot(ships: seq<TwoPlayerShip>, size: nat)
    ensures FirstSlot(ships, size) == None <==> NoSlot(ships, size)
  {
    var fit := FitsFor(ships, size);
    ScanFromNone(fit, 0, 0, 0);
    if FirstSlot(ships, size) == None {
      forall r, c, o | 0 <= r < BoardSize && 0 <= c < BoardSize ensures !Fits(ships, Position(r, c), size, o) {
        var kk: nat := if o == Horizontal then 0 else 1;
        assert NotBefore(0, 0, 0, r, c, kk);
        assert !fit(Position(r, c), ScanOrientation(kk));
      }
    } else {
      var d := FirstSlot(ships, size).value;
      assert Fits(ships, d.start, size, d.orientation);
    }
  }

  /** One step of the scan: check the slot and, when it fits, place the ship there. */
  method TrySlot(ships: seq<TwoPlayerShip>, shipIndex: nat, start: Position, orientation: Orientation)
    returns (placed: bool, ships': seq<TwoPlayerShip>)
    requires shipIndex < |ships|
    ensures placed == Fits(ships, start, ships[shipIndex].size, orientation)
    ensures placed ==> ships' == ships[shipIndex := Placed(ships[shipIndex], start, orientation)]
  {
    var ship := ships[shipIndex];
    var validation := CanPlaceShip(ships, start, ship.size, orientation);
    placed := validation.canPlace;
    ships' := ships;
    if placed {
      var positions := GenerateShipPositions(start, ship.size, orientation);
      ships' := ships[shipIndex := ship.(positions := positions, orientation := orientation,
                                          isPlaced := true, hits := Falses(ship.size))];
    }
  }

  /**
   * The scan's inner loop at one cell: horizontal is tried before
   * vertical, and the first that fits places the ship. `fit` stands for
   * the placement check against `ships`.
   */
  method TryCell(ships: seq<TwoPlayerShip>, shipIndex: nat, start: Position, ghost fit: (Position, Orientation) -> bool)
    returns (placed: bool, ships': seq<TwoPlayerShip>)
    requires shipIndex < |ships|
    requires forall p, o :: fit(p, o) == Fits(ships, p, ships[shipIndex].size, o)
    ensures placed <==> fit(start, Horizontal) || fit(start, Vertical)
    ensures placed ==> ships' == ships[shipIndex := Placed(ships[shipIndex], start,
              if fit(start, Horizontal) then Horizontal else Vertical)]
  {
    var k := 0;
    placed, ships' := false, ships;
    while k < 2
      invariant 0 <= k <= 2 && !placed
      invariant forall kk: nat :: kk < k ==> !fit(start, ScanOrientation(kk))
    {
      placed, ships' := TrySlot(ships, shipIndex, start, ScanOrientation(k));
      if placed {
        assert k == 1 ==> !fit(start, ScanOrientation(0));
        return;
      }
      k := k + 1;
    }
    assert !fit(start, ScanOrientation(0)) && !fit(start, ScanOrientation(1));
  }

  /** The scan at one cell, in terms of `ScanFrom`. */
  lemma ScanCell(fit: (Position, Orientation) -> bool, row: nat, col: nat)
    requires row < BoardSize && col < BoardSize
    ensures !fit(Position(row, col), Horizontal) && !fit(Position(row, col), Vertical) ==>
      ScanFrom(fit, row, col, 0) == ScanFrom(fit, row, col + 1, 0)
    ensures fit(Position(row, col), Horizontal) || fit(Position(row, col), Vertical) ==>
      ScanFrom(fit, row, col, 0) == Some(Draw(Position(row, col),
        if fit(Position(row, col), Horizontal) then Horizontal else Vertical))
  {
    assert ScanFrom(fit, row, col, 1) == if fit(Position(row, col), Vertical) then
      Some(Draw(Position(row, col), Vertical)) else ScanFrom(fit, row, col, 2);
  }

  /** The scan's middle loop: the cells of one row, left to right. */
  method TryRow(ships: seq<TwoPlayerShip>, shipIndex: nat, row: nat, ghost fit: (Position, Orientation) -> bool)
    returns (placed: bool, ships': seq<TwoPlayerShip>)
    requires shipIndex < |ships| && row < BoardSize
    requires forall p, o :: fit(p, o) == Fits(ships, p, ships[shipIndex].size, o)
    ensures var f := ScanFrom(fit, row, 0, 0);
      && (!placed ==> f == ScanFrom(fit, row + 1, 0, 0))
      && (placed ==> f.Some? && ships' == ships[shipIndex := Placed(ships[shipIndex], f.value.start, f.value.orientation)])
  {
    var col := 0;
    placed, ships' := false, ships;
    while col < BoardSize
      invariant 0 <= col <= BoardSize && !placed
      invariant ScanFrom(fit, row, 0, 0) == ScanFrom(fit, row, col, 0)
    {
      ScanCell(fit, row, col);
      placed, ships' := TryCell(ships, shipIndex, Position(row, col), fit);
      if placed {
        return;
      }
      col := col + 1;
    }
  }

  /** The scan's outer loop: the rows, top to bottom. */
  method TryRows(ships: seq<TwoPlayerShip>, shipIndex: nat, ghost fit: (Position, Orientation) -> bool)
    returns (placed: bool, ships': seq<TwoPlayerShip>)
    requires shipIndex < |ships|
    requires forall p, o :: fit(p, o) == Fits(ships, p, ships[shipIndex].size, o)
    ensures var f := ScanFrom(fit, 0, 0, 0);
      && placed == f.Some?
      && (placed ==> ships' == ships[shipIndex := Placed(ships[shipIndex], f.value.start, f.value.orientation)])
      && (!placed ==> ships' == ships)
  {
    var row := 0;
    while row < BoardSize
      invariant 0 <= row <= BoardSize
      invariant ScanFrom(fit, 0, 0, 0) == ScanFrom(fit, row, 0, 0)
    {
      placed, ships' := TryRow(ships, shipIndex, row, fit);
      if placed {
        return;
      }
      row := row + 1;
    }
    assert ScanFrom(fit, row, 0, 0) == None;
    placed, ships' := false, ships;
  }

  /**
   * `systematicPlaceShip`: the first fitting slot in row-major order,
   * horizontal before vertical, places the ship; without one the fleet is
   * returned as it was.
   */
  method SystematicPlaceShip(ships: seq<TwoPlayerShip>, shipIndex: nat) returns (placed: bool, ships': seq<TwoPlayerShip>)
    requires shipIndex < |ships|
    ensures var f := FirstSlot(ships, ships[shipIndex].size);
      && placed == f.Some?
      && (placed ==> ships' == ships[shipIndex := Placed(ships[shipIndex], f.value.start, f.value.orientation)])
      && (!placed ==> ships' == ships)
  {
    placed, ships' := TryRows(ships, shipIndex, FitsFor(ships, ships[shipIndex].size));
  }

  /** Every cell covered in `a` is covered in `b`. */
  ghost predicate CoversAtLeast(a: seq<TwoPlayerShip>, b: seq<TwoPlayerShip>) {
    forall p :: Occupied(a, p) ==> Occupied(b, p)
  }

  /** Covering more cells can only rule slots out. */
  lemma NoSlotGrows(a: seq<TwoPlayerShip>, b: seq<TwoPlayerShip>, size: nat)
    requires CoversAtLeast(a, b)
    requires NoSlot(a, size)
    ensures NoSlot(b, size)
  {
    forall r, c, o | 0 <= r < BoardSize && 0 <= c < BoardSize ensures !Fits(b, Position(r, c), size, o) {
      assert !Fits(a, Position(r, c), size, o);
    }
  }

  /** Putting one more ship on the board only adds covered cells. */
  lemma PlacingCoversMore(ships: seq<TwoPlayerShip>, i: nat, placed: TwoPlayerShip)
    requires i < |ships| && !ships[i].isPlaced
    ensures CoversAtLeast(ships, ships[i := placed])
  {
    forall p | Occupied(ships, p) ensures Occupied(ships[i := placed], p) {
      var j :| 0 <= j < |ships| && ships[j].isPlaced && p in ships[j].positions;
      assert ships[i := placed][j] == ships[j];
    }
  }

  /** Where a placed ship's run begins (any cell will do for an empty run). */
  function AnchorOf(ship: TwoPlayerShip): Position {
    if ship.positions == [] then Position(0, 0) else ship.positions[0]
  }

  /**
   * What automatic placement promises about the unplaced ship `s` at index
   * `i` of the final fleet `r`: either it stays as it was and nothing on the
   * board fits it, or it was placed from its anchor, on the board and apart
   * from every other placed ship.
   */
  predicate AutoPlaced(s: TwoPlayerShip, r: seq<TwoPlayerShip>, i: nat)
    requires i < |r|
  {
    || (r[i] == s && NoSlot(r, s.size))
    || (&& r[i] == Placed(s, AnchorOf(r[i]), r[i].orientation)
        && OnBoard(r[i].positions)
        && forall j :: 0 <= j < |r| && j != i && r[j].isPlaced ==> Apart(r[i], r[j]) && Apart(r[j], r[i]))
  }

  /** The `MaxAttempts` draws from `next` on, in the order they are made. */
  function Window(draws: nat -> Draw, next: nat): (w: seq<Draw>)
    ensures |w| == MaxAttempts
    ensures forall k :: 0 <= k < MaxAttempts ==> w[k] == draws(next + k)
  {
    seq(MaxAttempts, k requires 0 <= k => draws(next + k))
  }

  /**
   * The index of the first draw in `w` that fits a ship of `size` among
   * `ships`, or `|w|` when none does.
   */
  function FirstFit(ships: seq<TwoPlayerShip>, size: nat, w: seq<Draw>): (k: nat)
    ensures k <= |w|
    ensures k < |w| ==> Fits(ships, w[k].start, size, w[k].orientation)
    ensures forall j :: 0 <= j < k ==> !Fits(ships, w[j].start, size, w[j].orientation)
    decreases |w|
  {
    if w == [] then 0
    else if Fits(ships, w[0].start, size, w[0].orientation) then 0
    else
      var k := FirstFit(ships, size, w[1..]);
      assert forall j :: 1 <= j < k + 1 ==> w[j] == w[1..][j - 1];
      k + 1
  }

  /** A fitting draw with no fitting draw before it is the one `FirstFit` finds; with none, `FirstFit` finds nothing. */
  lemma {:induction false} FirstFitIs(ships: seq<TwoPlayerShip>, size: nat, w: seq<Draw>, k: nat)
    requires k <= |w|
    requires k < |w| ==> Fits(ships, w[k].start, size, w[k].orientation)
    requires forall j :: 0 <= j < k ==> !Fits(ships, w[j].start, size, w[j].orientation)
    ensures FirstFit(ships, size, w) == k
    decreases |w|
  {
    if w != [] && k > 0 {
      assert !Fits(ships, w[0].start, size, w[0].orientation);
      assert forall j :: 0 <= j < k - 1 ==> w[1..][j] == w[j + 1];
      FirstFitIs(ships, size, w[1..], k - 1);
    }
  }

  /**
   * Where automatic placement puts the unplaced ship at `i`, and the index
   * of the next unused draw: at the first of `MaxAttempts` draws that fits,
   * otherwise at the scan's first slot, otherwise nowhere.
   */
  function PlaceOne(ships: seq<TwoPlayerShip>, i: nat, draws: nat -> Draw, next: nat): (r: (seq<TwoPlayerShip>, nat))
    requires i < |ships|
    ensures |r.0| == |ships| && next < r.1 <= next + MaxAttempts
  {
    var w := Window(draws, next);
    var k := FirstFit(ships, ships[i].size, w);
    if k < |w| then (ships[i := Placed(ships[i], w[k].start, w[k].orientation)], next + k + 1)
    else match FirstSlot(ships, ships[i].size)
      case Some(f) => (ships[i := Placed(ships[i], f.start, f.orientation)], next + MaxAttempts)
      case None => (ships, next + MaxAttempts)
  }

  /** Automatic placement of the ships from index `i` on, drawing from `next` on. */
  function AutoPlaceFrom(ships: seq<TwoPlayerShip>, draws: nat -> Draw, i: nat, next: nat): (r: seq<TwoPlayerShip>)
    ensures |r| == |ships|
    decreases |ships| - i
  {
    if i >= |ships| then ships
    else if ships[i].isPlaced then AutoPlaceFrom(ships, draws, i + 1, next)
    else
      var (ships', next') := PlaceOne(ships, i, draws, next);
      AutoPlaceFrom(ships', draws, i + 1, next')
  }

  /** The fleet automatic placement builds from `ships` with the random source `draws`. */
  function AutoPlacement(ships: seq<TwoPlayerShip>, draws: nat -> Draw): seq<TwoPlayerShip> {
    AutoPlaceFrom(ships, draws, 0, 0)
  }

  /** Where `PlaceOne` puts the ship: at a slot that passes the check, or nowhere when no slot fits. */
  lemma PlaceOneFits(ships: seq<TwoPlayerShip>, i: nat, draws: nat -> Draw, next: nat)
    requires i < |ships|
    ensures var ships' := PlaceOne(ships, i, draws, next).0;
      || (ships' == ships && NoSlot(ships, ships[i].size))
      || exists d: Draw :: Fits(ships, d.start, ships[i].size, d.orientation)
                        && ships' == ships[i := Placed(ships[i], d.start, d.orientation)]
  {
    var size := ships[i].size;
    var w := Window(draws, next);
    var k := FirstFit(ships, size, w);
    if k < |w| {
      var d := w[k];
      assert PlaceOne(ships, i, draws, next).0 == ships[i := Placed(ships[i], d.start, d.orientation)];
    } else {
      FirstSlotFits(ships, size);
      FirstSlotNoneIffNoSlot(ships, size);
      if FirstSlot(ships, size).Some? {
        var d := FirstSlot(ships, size).value;
        assert PlaceOne(ships, i, draws, next).0 == ships[i := Placed(ships[i], d.start, d.orientation)];
      }
    }
  }

  /**
   * The random draws for the ship at `i`: up to `MaxAttempts` of them from
   * `next` on, stopping at the first one that passes the check.
   */
  method TryDraws(ships: seq<TwoPlayerShip>, i: nat, draws: nat -> Draw, next: nat)
    returns (placed: bool, ships': seq<TwoPlayerShip>, next': nat)
    requires i < |ships|
    ensures var w := Window(draws, next);
      var k := FirstFit(ships, ships[i].size, w);
      && placed == (k < |w|)
      && next' == (if placed then next + k + 1 else next + MaxAttempts)
      && ships' == (if placed then ships[i := Placed(ships[i], w[k].start, w[k].orientation)] else ships)
  {
    var ship := ships[i];
    ghost var w := Window(draws, next);
    ships' := ships;
    next' := next;
    placed := false;
    var attempts := 0;
    while !placed && attempts < MaxAttempts
      invariant 0 <= attempts <= MaxAttempts
      invariant next' == next + attempts
      invariant !placed ==> ships' == ships
      invariant !placed ==> forall j :: 0 <= j < attempts ==> !Fits(ships, w[j].start, ship.size, w[j].orientation)
      invariant placed ==>
                  && 0 < attempts && FirstFit(ships, ship.size, w) == attempts - 1
                  && ships' == ships[i := Placed(ship, w[attempts - 1].start, w[attempts - 1].orientation)]
    {
      var d := draws(next');
      assert d == w[attempts];
      next' := next' + 1;
      var validation := CanPlaceShip(ships', d.start, ship.size, d.orientation);
      if validation.canPlace {
        FirstFitIs(ships, ship.size, w, attempts);
        var positions := GenerateShipPositions(d.start, ship.size, d.orientation);
        ships' := ships'[i := ship.(positions := positions, orientation := d.orientation,
                                    isPlaced := true, hits := Falses(ship.size))];
        placed := true;
      }
      attempts := attempts + 1;
    }
    if !placed {
      FirstFitIs(ships, ship.size, w, MaxAttempts);
    }
  }

  /**
   * The ship at `i` placed by random draws, then by the scan: the first of
   * up to `MaxAttempts` draws from `next` on that passes the check places
   * it; when none does, the scan's first slot places it, if there is one.
   */
  method AutoPlaceOne(ships: seq<TwoPlayerShip>, i: nat, draws: nat -> Draw, next: nat)
    returns (ships': seq<TwoPlayerShip>, next': nat)
    requires i < |ships| && !ships[i].isPlaced
    ensures (ships', next') == PlaceOne(ships, i, draws, next)
    ensures || (ships' == ships && NoSlot(ships, ships[i].size))
            || exists d: Draw :: Fits(ships, d.start, ships[i].size, d.orientation)
                              && ships' == ships[i := Placed(ships[i], d.start, d.orientation)]
  {
    var placed;
    placed, ships', next' := TryDraws(ships, i, draws, next);
    if !placed {
      placed, ships' := SystematicPlaceShip(ships', i);
    }
    PlaceOneFits(ships, i, draws, next);
  }

  /**
   * `autoPlaceShips`: each unplaced ship in turn is placed against the fleet
   * as it stands, so it must avoid the ships placed before it, whether they
   * were already on the board or were placed a moment ago. Ships already on
   * the board are never moved. The random source is the sequence `draws`.
   */
  method AutoPlaceShips(ships: seq<TwoPlayerShip>, draws: nat -> Draw) returns (placedShips: seq<TwoPlayerShip>)
    ensures placedShips == AutoPlacement(ships, draws)
    ensures |placedShips| == |ships|
    ensures forall i :: 0 <= i < |ships| && ships[i].isPlaced ==> placedShips[i] == ships[i]
    ensures forall i :: 0 <= i < |ships| && !ships[i].isPlaced ==> AutoPlaced(ships[i], placedShips, i)
  {
    placedShips := ships;
    var next := 0;
    var i := 0;
    while i < |placedShips|
      invariant |placedShips| == |ships|
      invariant 0 <= i <= |ships|
      invariant AutoPlaceFrom(placedShips, draws, i, next) == AutoPlacement(ships, draws)
    {
      if !placedShips[i].isPlaced {
        placedShips, next := AutoPlaceOne(placedShips, i, draws, next);
      }
      i := i + 1;
    }
    AutoPlacementPlaces(ships, draws);
  }

  /**
   * The fleet automatic placement builds keeps the placed ships where they
   * were, and places each unplaced one apart from the others, or leaves it
   * unplaced with no slot left for it.
   */
  lemma AutoPlacementPlaces(ships: seq<TwoPlayerShip>, draws: nat -> Draw)
    ensures var r := AutoPlacement(ships, draws);
      && |r| == |ships|
      && (forall i :: 0 <= i < |ships| && ships[i].isPlaced ==> r[i] == ships[i])
      && (forall i :: 0 <= i < |ships| && !ships[i].isPlaced ==> AutoPlaced(ships[i], r, i))
  {
    AutoPlaceFromPlaces(ships, ships, draws, 0, 0);
  }

  /** `AutoPlacementPlaces` from ship `i` on, with the ships before `i` already handled in `cur`. */
  lemma {:induction false} AutoPlaceFromPlaces(ships: seq<TwoPlayerShip>, cur: seq<TwoPlayerShip>, draws: nat -> Draw, i: nat, next: nat)
    requires |cur| == |ships| && i <= |ships|
    requires forall j :: i <= j < |ships| ==> cur[j] == ships[j]
    requires forall j :: 0 <= j < i && ships[j].isPlaced ==> cur[j] == ships[j]
    requires forall j :: 0 <= j < i && !ships[j].isPlaced ==> AutoPlaced(ships[j], cur, j)
    ensures var r := AutoPlaceFrom(cur, draws, i, next);
      && (forall j :: 0 <= j < |ships| && ships[j].isPlaced ==> r[j] == ships[j])
      && (forall j :: 0 <= j < |ships| && !ships[j].isPlaced ==> AutoPlaced(ships[j], r, j))
    decreases |ships| - i
  {
    if i == |ships| {
    } else if cur[i].isPlaced {
      AutoPlaceFromPlaces(ships, cur, draws, i + 1, next);
    } else {
      var step := PlaceOne(cur, i, draws, next);
      PlaceOneKeepsPlaced(ships, cur, draws, i, next);
      AutoPlaceFromPlaces(ships, step.0, draws, i + 1, step.1);
    }
  }

  /** One step of `AutoPlaceFrom` on an unplaced ship keeps the promises and makes ship `i`'s. */
  lemma PlaceOneKeepsPlaced(ships: seq<TwoPlayerShip>, cur: seq<TwoPlayerShip>, draws: nat -> Draw, i: nat, next: nat)
    requires |cur| == |ships| && i < |ships| && !cur[i].isPlaced
    requires forall j :: i <= j < |ships| ==> cur[j] == ships[j]
    requires forall j :: 0 <= j < i && ships[j].isPlaced ==> cur[j] == ships[j]
    requires forall j :: 0 <= j < i && !ships[j].isPlaced ==> AutoPlaced(ships[j], cur, j)
    ensures var cur' := PlaceOne(cur, i, draws, next).0;
      && |cur'| == |ships|
      && (forall j :: i + 1 <= j < |ships| ==> cur'[j] == ships[j])
      && (forall j :: 0 <= j < i + 1 && ships[j].isPlaced ==> cur'[j] == ships[j])
      && (forall j :: 0 <= j < i + 1 && !ships[j].isPlaced ==> AutoPlaced(ships[j], cur', j))
  {
    var cur' := PlaceOne(cur, i, draws, next).0;
    PlaceOneFits(cur, i, draws, next);
    if cur' != cur {
      var d: Draw :| Fits(cur, d.start, ships[i].size, d.orientation)
                   && cur' == cur[i := Placed(ships[i], d.start, d.orientation)];
      AutoPlaceStep(ships, cur, i, d);
    } else {
      assert AutoPlaced(ships[i], cur', i);
    }
  }

  /** The loop step of automatic placement that puts ship `i` on the board. */
  lemma AutoPlaceStep(ships: seq<TwoPlayerShip>, before: seq<TwoPlayerShip>, i: nat, d: Draw)
    requires |before| == |ships| && i < |ships| && !ships[i].isPlaced && before[i] == ships[i]
    requires forall j :: 0 <= j < i && !ships[j].isPlaced ==> AutoPlaced(ships[j], before, j)
    requires Fits(before, d.start, ships[i].size, d.orientation)
    ensures var after := before[i := Placed(ships[i], d.start, d.orientation)];
      && (forall j :: 0 <= j < i && !ships[j].isPlaced ==> AutoPlaced(ships[j], after, j))
      && AutoPlaced(ships[i], after, i)
  {
    var after := before[i := Placed(ships[i], d.start, d.orientation)];
    PlacingCoversMore(before, i, Placed(ships[i], d.start, d.orientation));
    forall j | 0 <= j < i && !ships[j].isPlaced ensures AutoPlaced(ships[j], after, j) {
      if before[j] == ships[j] && NoSlot(before, ships[j].size) {
        NoSlotGrows(before, after, ships[j].size);
      } else {
        FitsApart(before, ships[i], d.start, d.orientation, j) by {
          assert before[j].isPlaced;
        }
      }
    }
    RunShape(d.start, ships[i].size, d.orientation);
    forall j | 0 <= j < |after| && j != i && after[j].isPlaced
      ensures Apart(after[i], after[j]) && Apart(after[j], after[i])
    {
      FitsApart(before, ships[i], d.start, d.orientation, j);
    }
  }

  /** `autoPlaceRemainingShips`: a fleet already on the board comes back as it is. */
  method AutoPlaceRemainingShips(ships: seq<TwoPlayerShip>, draws: nat -> Draw) returns (r: seq<TwoPlayerShip>)
    ensures AllShipsPlaced(ships) ==> r == ships
    ensures |r| == |ships|
    ensures forall i :: 0 <= i < |ships| && ships[i].isPlaced ==> r[i] == ships[i]
    ensures forall i :: 0 <= i < |ships| && !ships[i].isPlaced ==> AutoPlaced(ships[i], r, i)
    ensures r == AutoPlacement(ships, draws)
  {
    if AllShipsPlaced(ships) {
      PlacedFleetStays(ships, draws, 0, 0);
      return ships;
    }
    r := AutoPlaceShips(ships, draws);
  }

  /** Automatic placement leaves a fleet whose ships from `i` on are all placed as it is. */
  lemma {:induction false} PlacedFleetStays(ships: seq<TwoPlayerShip>, draws: nat -> Draw, i: nat, next: nat)
    requires forall j :: i <= j < |ships| ==> ships[j].isPlaced
    ensures AutoPlaceFrom(ships, draws, i, next) == ships
    decreases |ships| - i
  {
    if i < |ships| {
      PlacedFleetStays(ships, draws, i + 1, next);
    }
  }

  /** Automatic placement keeps a laid-out fleet laid out. */
  lemma AutoPlacedLaidOut(ships: seq<TwoPlayerShip>, r: seq<TwoPlayerShip>)
    requires LaidOut(ships)
    requires |r| == |ships|
    requires forall i :: 0 <= i < |ships| && ships[i].isPlaced ==> r[i] == ships[i]
    requires forall i :: 0 <= i < |ships| && !ships[i].isPlaced ==> AutoPlaced(ships[i], r, i)
    ensures LaidOut(r)
  {
    forall i, j | 0 <= i < |r| && 0 <= j < |r| && i != j && r[i].isPlaced && r[j].isPlaced
      ensures Apart(r[i], r[j])
    {
      if !ships[i].isPlaced {
        assert r[i] != ships[i];
      } else if !ships[j].isPlaced {
        assert r[j] != ships[j];
      }
    }
  }
}
