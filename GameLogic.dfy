/**
 * Single-player rules: the empty board, the static layout validator, fleet
 * construction from a layout, and the resolution of one shot.
 */
module GameLogic {

  import opened Types
  import Text

  // ---------------------------------------------------------------------------
  // Board

  /** A `BoardSize` x `BoardSize` grid of unattacked, unhit, unnamed cells. */
  function CreateEmptyBoard(): (b: seq<seq<Cell>>)
    ensures |b| == BoardSize
    ensures forall r :: 0 <= r < |b| ==> |b[r]| == BoardSize
    ensures forall r, c :: 0 <= r < |b| && 0 <= c < |b[r]| ==>
      !b[r][c].isAttacked && !b[r][c].isHit && b[r][c].shipName == None
  {
    seq(BoardSize, _ => seq(BoardSize, _ => EmptyCell))
  }

  // ---------------------------------------------------------------------------
  // Layout validation

  /** The errors the validator reports; `Message` gives their text. */
  datatype LayoutError =
    | EmptyLayout
    | InvalidName(index: nat)
    | NoPositions(ship: string)
    | NotAPair(ship: string, posIndex: nat)
    | OutOfBounds(ship: string, posIndex: nat, row: int, col: int)
    | Overlapping(row: int, col: int)

  function Message(e: LayoutError): string {
    match e
    case EmptyLayout => "Ship layout cannot be empty"
    case InvalidName(i) => "Ship at index " + Text.IntToString(i) + " has invalid or missing name"
    case NoPositions(s) => "Ship \"" + s + "\" has no positions"
    case NotAPair(s, k) =>
      "Ship \"" + s + "\" position " + Text.IntToString(k) + " is not a valid [row, col] array"
    case OutOfBounds(s, k, r, c) =>
      "Ship \"" + s + "\" position " + Text.IntToString(k) + " [" + Text.IntToString(r) + ", "
      + Text.IntToString(c) + "] is out of bounds"
    case Overlapping(r, c) =>
      "Overlapping ship positions found at [" + Text.IntToString(r) + ", " + Text.IntToString(c) + "]"
  }

  predicate PairInBounds(p: seq<int>)
    requires |p| == 2
  {
    0 <= p[0] < BoardSize && 0 <= p[1] < BoardSize
  }

  /** What the per-position check reports for the position at `posIndex`. */
  function PositionError(name: string, posIndex: nat, p: seq<int>): seq<LayoutError> {
    if |p| != 2 then [NotAPair(name, posIndex)]
    else if !PairInBounds(p) then [OutOfBounds(name, posIndex, p[0], p[1])]
    else []
  }

  /** The per-position errors of `ps`, in order. */
  function PositionErrors(name: string, ps: seq<seq<int>>): seq<LayoutError> {
    Flatten(seq(|ps|, k requires 0 <= k < |ps| => PositionError(name, k, ps[k])))
  }

  /** What the first pass reports for the ship at `index`. */
  function ShipErrors(index: nat, s: ShipLayout): seq<LayoutError> {
    (if s.ship == "" then [InvalidName(index)] else [])
    + (if s.positions == [] then [NoPositions(s.ship)] else PositionErrors(s.ship, s.positions))
  }

  /** The first pass: every ship's own errors, ship by ship. */
  function ShapeErrors(layout: seq<ShipLayout>): seq<LayoutError> {
    Flatten(seq(|layout|, i requires 0 <= i < |layout| => ShipErrors(i, layout[i])))
  }

  /** A position as a cell, when it is a [row, col] pair. */
  function PairOf(p: seq<int>): seq<Position> {
    if |p| == 2 then [Position(p[0], p[1])] else []
  }

  /** The arity-2 positions of one ship, as cells, in order. */
  function PairsOf(ps: seq<seq<int>>): seq<Position> {
    Flatten(seq(|ps|, k requires 0 <= k < |ps| => PairOf(ps[k])))
  }

  /** The arity-2 positions of the whole layout, ship after ship. */
  function Pairs(layout: seq<ShipLayout>): seq<Position> {
    Flatten(seq(|layout|, i requires 0 <= i < |layout| => PairsOf(layout[i].positions)))
  }

  /** The second pass: one error for every cell already seen earlier in `q`. */
  function OverlapErrors(q: seq<Position>): seq<LayoutError>
    decreases |q|
  {
    if q == [] then []
    else
      var p := q[|q| - 1];
      OverlapErrors(q[..|q| - 1]) + (if p in q[..|q| - 1] then [Overlapping(p.row, p.col)] else [])
  }

  /** Everything the validator reports for `layout`, in the order it reports it. */
  function LayoutErrors(layout: seq<ShipLayout>): seq<LayoutError> {
    if layout == [] then [EmptyLayout] else ShapeErrors(layout) + OverlapErrors(Pairs(layout))
  }

  lemma PositionErrorsSnoc(name: string, ps: seq<seq<int>>, j: nat)
    requires j < |ps|
    ensures PositionErrors(name, ps[..j + 1]) == PositionErrors(name, ps[..j]) + PositionError(name, j, ps[j])
  {
    var all := seq(j + 1, k requires 0 <= k < j + 1 => PositionError(name, k, ps[k]));
    assert seq(j + 1, k requires 0 <= k < j + 1 => PositionError(name, k, ps[..j + 1][k])) == all;
    assert seq(j, k requires 0 <= k < j => PositionError(name, k, ps[..j][k])) == all[..j];
    FlattenSnoc(all, j);
  }

  lemma ShapeErrorsSnoc(layout: seq<ShipLayout>, i: nat)
    requires i < |layout|
    ensures ShapeErrors(layout[..i + 1]) == ShapeErrors(layout[..i]) + ShipErrors(i, layout[i])
  {
    var all := seq(i + 1, k requires 0 <= k < i + 1 => ShipErrors(k, layout[k]));
    assert seq(i + 1, k requires 0 <= k < i + 1 => ShipErrors(k, layout[..i + 1][k])) == all;
    assert seq(i, k requires 0 <= k < i => ShipErrors(k, layout[..i][k])) == all[..i];
    FlattenSnoc(all, i);
  }

  lemma PairsSnoc(layout: seq<ShipLayout>, i: nat)
    requires i < |layout|
    ensures Pairs(layout[..i + 1]) == Pairs(layout[..i]) + PairsOf(layout[i].positions)
  {
    var all := seq(i + 1, k requires 0 <= k < i + 1 => PairsOf(layout[k].positions));
    assert seq(i + 1, k requires 0 <= k < i + 1 => PairsOf(layout[..i + 1][k].positions)) == all;
    assert seq(i, k requires 0 <= k < i => PairsOf(layout[..i][k].positions)) == all[..i];
    FlattenSnoc(all, i);
  }

  lemma PairsOfSnoc(ps: seq<seq<int>>, j: nat)
    requires j < |ps|
    ensures PairsOf(ps[..j + 1]) == PairsOf(ps[..j]) + PairOf(ps[j])
  {
    var all := seq(j + 1, k requires 0 <= k < j + 1 => PairOf(ps[k]));
    assert seq(j + 1, k requires 0 <= k < j + 1 => PairOf(ps[..j + 1][k])) == all;
    assert seq(j, k requires 0 <= k < j => PairOf(ps[..j][k])) == all[..j];
    FlattenSnoc(all, j);
  }

  lemma OverlapErrorsSnoc(q: seq<Position>, p: Position)
    ensures OverlapErrors(q + [p]) == OverlapErrors(q) + (if p in q then [Overlapping(p.row, p.col)] else [])
  {
    assert (q + [p])[..|q|] == q;
  }

  lemma ElementsSnoc(q: seq<Position>, x: Position)
    ensures (set p | p in q + [x]) == (set p | p in q) + {x}
  {
  }

  /** The first pass's callback for one ship: its name, then each position in turn. */
  method CheckShip(index: nat, shipData: ShipLayout) returns (errors: seq<LayoutError>)
    ensures errors == ShipErrors(index, shipData)
  {
    errors := [];
    if shipData.ship == "" {
      errors := errors + [InvalidName(index)];
    }
    if |shipData.positions| == 0 {
      errors := errors + [NoPositions(shipData.ship)];
      return;
    }
    ghost var before := errors;
    var j := 0;
    while j < |shipData.positions|
      invariant 0 <= j <= |shipData.positions|
      invariant errors == before + PositionErrors(shipData.ship, shipData.positions[..j])
    {
      PositionErrorsSnoc(shipData.ship, shipData.positions, j);
      var position := shipData.positions[j];
      if |position| != 2 {
        errors := errors + [NotAPair(shipData.ship, j)];
      } else {
        var row, col := position[0], position[1];
        if row < 0 || row >= BoardSize || col < 0 || col >= BoardSize {
          errors := errors + [OutOfBounds(shipData.ship, j, row, col)];
        }
      }
      j := j + 1;
    }
    assert shipData.positions[..j] == shipData.positions;
  }

  /** The first pass: every ship is checked, whatever the earlier ones reported. */
  method CheckShapes(layout: seq<ShipLayout>) returns (errors: seq<LayoutError>)
    ensures errors == ShapeErrors(layout)
  {
    errors := [];
    var i := 0;
    while i < |layout|
      invariant 0 <= i <= |layout|
      invariant errors == ShapeErrors(layout[..i])
    {
      ShapeErrorsSnoc(layout, i);
      var shipErrors := CheckShip(i, layout[i]);
      errors := errors + shipErrors;
      i := i + 1;
    }
    assert layout[..i] == layout;
  }

  /**
   * The second pass's callback for one ship: each arity-2 position already in
   * `seen` is reported, and every arity-2 position is added to it.
   */
  method RecordPositions(positions: seq<seq<int>>, seen: set<Position>, ghost seenSeq: seq<Position>)
    returns (errors: seq<LayoutError>, seen': set<Position>)
    requires seen == set p | p in seenSeq
    ensures seen' == set p | p in seenSeq + PairsOf(positions)
    ensures OverlapErrors(seenSeq + PairsOf(positions)) == OverlapErrors(seenSeq) + errors
  {
    errors := [];
    seen' := seen;
    ghost var q := seenSeq;
    var j := 0;
    while j < |positions|
      invariant 0 <= j <= |positions|
      invariant q == seenSeq + PairsOf(positions[..j])
      invariant seen' == set p | p in q
      invariant OverlapErrors(q) == OverlapErrors(seenSeq) + errors
    {
      PairsOfSnoc(positions, j);
      var position := positions[j];
      if |position| == 2 {
        var posKey := Position(position[0], position[1]);
        OverlapErrorsSnoc(q, posKey);
        ElementsSnoc(q, posKey);
        assert seenSeq + PairsOf(positions[..j + 1]) == q + [posKey];
        if posKey in seen' {
          errors := errors + [Overlapping(position[0], position[1])];
        }
        seen' := seen' + {posKey};
        q := q + [posKey];
      } else {
        assert seenSeq + PairsOf(positions[..j + 1]) == q;
      }
      j := j + 1;
    }
    assert positions[..j] == positions;
  }

  /** The second pass: one set of seen cells shared by the whole layout. */
  method CheckOverlaps(layout: seq<ShipLayout>) returns (errors: seq<LayoutError>)
    ensures errors == OverlapErrors(Pairs(layout))
  {
    errors := [];
    var allPositions: set<Position> := {};
    var i := 0;
    while i < |layout|
      invariant 0 <= i <= |layout|
      invariant allPositions == set p | p in Pairs(layout[..i])
      invariant errors == OverlapErrors(Pairs(layout[..i]))
    {
      PairsSnoc(layout, i);
      var shipErrors;
      shipErrors, allPositions := RecordPositions(layout[i].positions, allPositions, Pairs(layout[..i]));
      errors := errors + shipErrors;
      i := i + 1;
    }
    assert layout[..i] == layout;
  }

  /**
   * The validator: an empty layout is rejected at once; otherwise both passes
   * run and the layout is valid exactly when neither reported anything.
   */
  method ValidateShipLayout(layout: seq<ShipLayout>) returns (isValid: bool, errors: seq<LayoutError>)
    ensures errors == LayoutErrors(layout)
    ensures isValid <==> errors == []
    ensures layout == [] ==> errors == [EmptyLayout]
  {
    if |layout| == 0 {
      return false, [EmptyLayout];
    }
    var shapeErrors := CheckShapes(layout);
    var overlapErrors := CheckOverlaps(layout);
    errors := shapeErrors + overlapErrors;
    isValid := |errors| == 0;
  }

  // ---------------------------------------------------------------------------
  // What the validator reports, stated position by position

  /** A ship entry the first pass has nothing to say about. */
  predicate ShipShapeOk(s: ShipLayout) {
    && s.ship != ""
    && s.positions != []
    && forall k :: 0 <= k < |s.positions| ==> |s.positions[k]| == 2 && PairInBounds(s.positions[k])
  }

  lemma PositionErrorsMember(name: string, ps: seq<seq<int>>, e: LayoutError)
    ensures e in PositionErrors(name, ps) <==> exists k :: 0 <= k < |ps| && e in PositionError(name, k, ps[k])
  {
    var all := seq(|ps|, k requires 0 <= k < |ps| => PositionError(name, k, ps[k]));
    FlattenMember(all, e);
    assert forall k :: 0 <= k < |ps| ==> all[k] == PositionError(name, k, ps[k]);
  }

  /** The first pass's report on ship `i` includes `e`. */
  predicate ShipReports(layout: seq<ShipLayout>, i: int, e: LayoutError)
    requires 0 <= i < |layout|
  {
    e in ShipErrors(i, layout[i])
  }

  lemma ShapeErrorsMember(layout: seq<ShipLayout>, e: LayoutError)
    ensures e in ShapeErrors(layout) <==> exists i :: 0 <= i < |layout| && ShipReports(layout, i, e)
  {
    var all := seq(|layout|, i requires 0 <= i < |layout| => ShipErrors(i, layout[i]));
    FlattenMember(all, e);
    forall i | 0 <= i < |layout| ensures ShipReports(layout, i, e) <==> e in all[i] {
    }
  }

  lemma {:induction false} OverlapErrorsAreOverlaps(q: seq<Position>, e: LayoutError)
    requires e in OverlapErrors(q)
    ensures e.Overlapping?
    decreases |q|
  {
    var n := |q| - 1;
    if e in OverlapErrors(q[..n]) {
      OverlapErrorsAreOverlaps(q[..n], e);
    }
  }

  /** The second pass reports a cell exactly when it occurs at least twice. */
  lemma {:induction false} OverlapErrorsMember(q: seq<Position>, r: int, c: int)
    ensures Overlapping(r, c) in OverlapErrors(q) <==>
      exists i, j :: 0 <= i < j < |q| && q[i] == Position(r, c) && q[j] == Position(r, c)
    decreases |q|
  {
    if q != [] {
      var n := |q| - 1;
      var front := q[..n];
      OverlapErrorsMember(front, r, c);
      if Overlapping(r, c) in OverlapErrors(front) {
        var i, j :| 0 <= i < j < |front| && front[i] == Position(r, c) && front[j] == Position(r, c);
        assert q[i] == front[i] && q[j] == front[j];
      } else if Overlapping(r, c) in OverlapErrors(q) {
        assert q[n] in front && q[n] == Position(r, c);
        var i :| 0 <= i < |front| && front[i] == q[n];
        assert q[i] == front[i];
      }
      if exists i, j :: 0 <= i < j < |q| && q[i] == Position(r, c) && q[j] == Position(r, c) {
        var i, j :| 0 <= i < j < |q| && q[i] == Position(r, c) && q[j] == Position(r, c);
        if j < n {
          assert front[i] == q[i] && front[j] == q[j];
        } else {
          assert front[i] == q[i];
          assert q[n] in front;
        }
      }
    }
  }

  lemma {:induction false} OverlapErrorsEmpty(q: seq<Position>)
    ensures OverlapErrors(q) == [] <==> Distinct(q)
    decreases |q|
  {
    if q != [] {
      var n := |q| - 1;
      var front := q[..n];
      OverlapErrorsEmpty(front);
      if Distinct(q) {
        assert Distinct(front) by {
          forall i, j | 0 <= i < j < |front| ensures front[i] != front[j] {
            assert front[i] == q[i] && front[j] == q[j];
          }
        }
        assert q[n] !in front by {
          forall i | 0 <= i < |front| ensures front[i] != q[n] {
            assert front[i] == q[i];
          }
        }
      }
      if OverlapErrors(q) == [] {
        assert OverlapErrors(front) == [];
        forall i, j | 0 <= i < j < |q| ensures q[i] != q[j] {
          if j < n {
            assert front[i] == q[i] && front[j] == q[j];
          } else {
            assert front[i] == q[i];
          }
        }
      }
    }
  }

  lemma PositionErrorsEmpty(name: string, ps: seq<seq<int>>)
    ensures PositionErrors(name, ps) == [] <==>
      forall k :: 0 <= k < |ps| ==> |ps[k]| == 2 && PairInBounds(ps[k])
  {
    var all := seq(|ps|, k requires 0 <= k < |ps| => PositionError(name, k, ps[k]));
    FlattenEmpty(all);
    forall k | 0 <= k < |ps| ensures all[k] == [] <==> |ps[k]| == 2 && PairInBounds(ps[k]) {
    }
  }

  lemma ShipErrorsEmpty(index: nat, s: ShipLayout)
    ensures ShipErrors(index, s) == [] <==> ShipShapeOk(s)
  {
    PositionErrorsEmpty(s.ship, s.positions);
  }

  lemma ShapeErrorsEmpty(layout: seq<ShipLayout>)
    ensures ShapeErrors(layout) == [] <==> forall i :: 0 <= i < |layout| ==> ShipShapeOk(layout[i])
  {
    var all := seq(|layout|, i requires 0 <= i < |layout| => ShipErrors(i, layout[i]));
    FlattenEmpty(all);
    forall i | 0 <= i < |layout| ensures all[i] == [] <==> ShipShapeOk(layout[i]) {
      ShipErrorsEmpty(i, layout[i]);
    }
  }

  /**
   * A layout is valid exactly when it is non-empty, every entry has a name and
   * only in-bounds [row, col] pairs, and no cell occurs twice in the layout.
   */
  lemma ValidLayoutCharacterization(layout: seq<ShipLayout>)
    ensures LayoutErrors(layout) == [] <==>
      && layout != []
      && (forall i :: 0 <= i < |layout| ==> ShipShapeOk(layout[i]))
      && Distinct(Pairs(layout))
  {
    ShapeErrorsEmpty(layout);
    OverlapErrorsEmpty(Pairs(layout));
  }

  lemma PositionErrorsNoOverlap(name: string, ps: seq<seq<int>>, r: int, c: int)
    ensures Overlapping(r, c) !in PositionErrors(name, ps)
  {
    PositionErrorsMember(name, ps, Overlapping(r, c));
  }

  /** A cell is reported as overlapping exactly when it occurs twice among the layout's pairs. */
  lemma OverlappingReported(layout: seq<ShipLayout>, r: int, c: int)
    ensures Overlapping(r, c) in LayoutErrors(layout) <==>
      && layout != []
      && exists i, j :: 0 <= i < j < |Pairs(layout)| && Pairs(layout)[i] == Position(r, c) && Pairs(layout)[j] == Position(r, c)
  {
    ShapeErrorsMember(layout, Overlapping(r, c));
    forall i | 0 <= i < |layout| ensures Overlapping(r, c) !in ShipErrors(i, layout[i]) {
      PositionErrorsNoOverlap(layout[i].ship, layout[i].positions, r, c);
    }
    OverlapErrorsMember(Pairs(layout), r, c);
  }

  /** Ship entry `s` has, at index `k`, the out-of-bounds pair [r, c]. */
  predicate HasOutOfBounds(s: ShipLayout, k: nat, r: int, c: int) {
    k < |s.positions| && s.positions[k] == [r, c] && !PairInBounds([r, c])
  }

  lemma ShipOutOfBounds(i: nat, s: ShipLayout, name: string, k: nat, r: int, c: int)
    ensures OutOfBounds(name, k, r, c) in ShipErrors(i, s) <==> s.ship == name && HasOutOfBounds(s, k, r, c)
  {
    var e := OutOfBounds(name, k, r, c);
    PositionErrorsMember(s.ship, s.positions, e);
    if e in ShipErrors(i, s) {
      var j :| 0 <= j < |s.positions| && e in PositionError(s.ship, j, s.positions[j]);
      var p := s.positions[j];
      assert p == [p[0], p[1]];
    }
    if s.ship == name && HasOutOfBounds(s, k, r, c) {
      assert [r, c][0] == r && [r, c][1] == c;
      assert e in PositionError(s.ship, k, s.positions[k]);
    }
  }

  /** Every out-of-bounds pair is reported, naming its ship and index, and nothing else is. */
  lemma OutOfBoundsReported(layout: seq<ShipLayout>, name: string, k: nat, r: int, c: int)
    ensures OutOfBounds(name, k, r, c) in LayoutErrors(layout) <==>
      exists i :: 0 <= i < |layout| && layout[i].ship == name && HasOutOfBounds(layout[i], k, r, c)
  {
    var e := OutOfBounds(name, k, r, c);
    ShapeErrorsMember(layout, e);
    if e in OverlapErrors(Pairs(layout)) {
      OverlapErrorsAreOverlaps(Pairs(layout), e);
    }
    forall i | 0 <= i < |layout|
      ensures ShipReports(layout, i, e) <==> layout[i].ship == name && HasOutOfBounds(layout[i], k, r, c)
    {
      ShipOutOfBounds(i, layout[i], name, k, r, c);
    }
  }

  lemma ShipNotAPair(i: nat, s: ShipLayout, name: string, k: nat)
    ensures NotAPair(name, k) in ShipErrors(i, s) <==>
      s.ship == name && k < |s.positions| && |s.positions[k]| != 2
  {
    var e := NotAPair(name, k);
    PositionErrorsMember(s.ship, s.positions, e);
    if s.ship == name && k < |s.positions| && |s.positions[k]| != 2 {
      assert e in PositionError(s.ship, k, s.positions[k]);
    }
  }

  /** Every position that is not a [row, col] pair is reported, naming its ship and index. */
  lemma NotAPairReported(layout: seq<ShipLayout>, name: string, k: nat)
    ensures NotAPair(name, k) in LayoutErrors(layout) <==>
      exists i :: 0 <= i < |layout| && layout[i].ship == name && k < |layout[i].positions|
        && |layout[i].positions[k]| != 2
  {
    var e := NotAPair(name, k);
    ShapeErrorsMember(layout, e);
    if e in OverlapErrors(Pairs(layout)) {
      OverlapErrorsAreOverlaps(Pairs(layout), e);
    }
    forall i | 0 <= i < |layout|
      ensures ShipReports(layout, i, e) <==>
        layout[i].ship == name && k < |layout[i].positions| && |layout[i].positions[k]| != 2
    {
      ShipNotAPair(i, layout[i], name, k);
    }
  }

  /** Only [row, col] pairs reach the second pass, each as its cell. */
  lemma PairsMember(layout: seq<ShipLayout>, p: Position)
    ensures p in Pairs(layout) <==>
      exists i, k :: 0 <= i < |layout| && 0 <= k < |layout[i].positions|
        && layout[i].positions[k] == [p.row, p.col]
  {
    var all := seq(|layout|, i requires 0 <= i < |layout| => PairsOf(layout[i].positions));
    FlattenMember(all, p);
    forall i | 0 <= i < |layout|
      ensures p in all[i] <==>
        exists k :: 0 <= k < |layout[i].positions| && layout[i].positions[k] == [p.row, p.col]
    {
      var ps := layout[i].positions;
      var each := seq(|ps|, k requires 0 <= k < |ps| => PairOf(ps[k]));
      FlattenMember(each, p);
      forall k | 0 <= k < |ps| ensures p in each[k] <==> ps[k] == [p.row, p.col] {
        if |ps[k]| == 2 {
          assert ps[k] == [ps[k][0], ps[k][1]];
        }
      }
    }
  }

  // ---------------------------------------------------------------------------
  // Fleet construction

  predicate AllPairs(ps: seq<seq<int>>) {
    forall k :: 0 <= k < |ps| ==> |ps[k]| == 2
  }

  function ToPosition(p: seq<int>): Position
    requires |p| == 2
  {
    Position(p[0], p[1])
  }

  function ShipFromLayout(s: ShipLayout): Ship
    requires AllPairs(s.positions)
  {
    Ship(s.ship,
         seq(|s.positions|, k requires 0 <= k < |s.positions| => ToPosition(s.positions[k])),
         seq(|s.positions|, _ => false),
         false)
  }

  /** `ship` is the fresh ship built from entry `s`: same name and cells, no hits, afloat. */
  predicate BuiltFrom(s: ShipLayout, ship: Ship) {
    && ship.name == s.ship
    && |ship.positions| == |s.positions|
    && (forall k :: 0 <= k < |s.positions| ==> [ship.positions[k].row, ship.positions[k].col] == s.positions[k])
    && |ship.hits| == |ship.positions|
    && (forall k :: 0 <= k < |ship.hits| ==> !ship.hits[k])
    && !ship.isSunk
  }

  /** An invalid layout gives no ships; a valid one gives one fresh ship per entry, in order. */
  function InitializeShips(layout: seq<ShipLayout>): (ships: seq<Ship>)
    ensures LayoutErrors(layout) != [] ==> ships == []
    ensures LayoutErrors(layout) == [] ==>
      |ships| == |layout| && forall i :: 0 <= i < |layout| ==> BuiltFrom(layout[i], ships[i])
  {
    if LayoutErrors(layout) != [] then []
    else
      ValidLayoutCharacterization(layout);
      var ships := seq(|layout|, i requires 0 <= i < |layout| => ShipFromLayout(layout[i]));
      assert forall i :: 0 <= i < |layout| ==> BuiltFrom(layout[i], ships[i]) by {
        forall i | 0 <= i < |layout| ensures BuiltFrom(layout[i], ships[i]) {
          var ps := layout[i].positions;
          forall k | 0 <= k < |ps| ensures [ships[i].positions[k].row, ships[i].positions[k].col] == ps[k] {
            assert ps[k] == [ps[k][0], ps[k][1]];
          }
        }
      }
      ships
  }

  /** The cells of a fleet, ship after ship. */
  function FleetCells(ships: seq<Ship>): seq<Position> {
    Flatten(seq(|ships|, i requires 0 <= i < |ships| => ships[i].positions))
  }

  lemma {:induction false} PairsOfAllPairs(ps: seq<seq<int>>)
    requires AllPairs(ps)
    ensures PairsOf(ps) == seq(|ps|, k requires 0 <= k < |ps| => ToPosition(ps[k]))
    decreases |ps|
  {
    if ps != [] {
      var n := |ps| - 1;
      PairsOfAllPairs(ps[..n]);
      PairsOfSnoc(ps, n);
      assert ps[..n + 1] == ps;
    }
  }

  /**
   * The fleet built from a valid layout lies on the board and no two of its
   * cells coincide, within a ship or across ships.
   */
  lemma InitializedFleetIsDisjoint(layout: seq<ShipLayout>)
    requires LayoutErrors(layout) == []
    ensures Distinct(FleetCells(InitializeShips(layout)))
    ensures forall i, k :: 0 <= i < |InitializeShips(layout)| && 0 <= k < |InitializeShips(layout)[i].positions| ==>
      InBounds(InitializeShips(layout)[i].positions[k])
  {
    ValidLayoutCharacterization(layout);
    var ships := InitializeShips(layout);
    var cells := seq(|ships|, i requires 0 <= i < |ships| => ships[i].positions);
    var pairs := seq(|layout|, i requires 0 <= i < |layout| => PairsOf(layout[i].positions));
    forall i | 0 <= i < |layout| ensures cells[i] == pairs[i] {
      PairsOfAllPairs(layout[i].positions);
    }
    assert cells == pairs;
    forall i, k | 0 <= i < |ships| && 0 <= k < |ships[i].positions| ensures InBounds(ships[i].positions[k]) {
      assert PairInBounds(layout[i].positions[k]);
    }
  }

  // ---------------------------------------------------------------------------
  // Sinking and winning

  /** A ship is sunk when every one of its hit flags is set. */
  function CheckShipSunk(ship: Ship): (sunk: bool)
    ensures sunk <==> forall k :: 0 <= k < |ship.hits| ==> ship.hits[k]
  {
    AllTrue(ship.hits)
  }

  /** The game is won when every ship is sunk; an empty fleet counts as won. */
  function CheckGameWon(ships: seq<Ship>): (won: bool)
    ensures won <==> forall i :: 0 <= i < |ships| ==> CheckShipSunk(ships[i])
    ensures ships == [] ==> won
  {
    ships == [] || (CheckShipSunk(ships[0]) && CheckGameWon(ships[1..]))
  }

  // ---------------------------------------------------------------------------
  // One shot

  datatype ShotResult = HitResult | MissResult | DuplicateResult | OutOfBoundsResult | GameOverResult

  /** What a shot returns: the next state, the kind of outcome and the status text. */
  datatype CellAttack = CellAttack(gameState: GameState, result: ShotResult, message: string)

  const GameOverMessage: string := "Game is already complete! All ships have been destroyed."
  const BadBoardMessage: string := "Invalid board state or coordinates."
  const DuplicateMessage: string := "You've already fired at this position! Try a different cell."
  const MissMessage: string := "Miss! No ship at this location."
  const HitMessage: string := "Hit! You struck a ship!"
  /** The victory text, without the emoji that frame it in the game. */
  const VictoryMessage: string := "Victory! All ships destroyed!"

  function OutOfBoundsMessage(row: int, col: int): string {
    "Invalid coordinates [" + Text.IntToString(row) + ", " + Text.IntToString(col)
    + "]. Please click within the game board."
  }

  function SunkMessage(name: string): (m: string)
    ensures |m| > 0 && m[0] == 'H'
  {
    "Hit! " + Text.Capitalize(name) + " Sunk!"
  }

  /** The cells a single-player ship covers. */
  function ShipCells(ship: Ship): seq<Position> {
    ship.positions
  }

  /** A ship after the shot on its cell `k`: the flag is set and `isSunk` recomputed. */
  function Struck(ship: Ship, k: nat): Ship {
    var h := MarkHit(ship.hits, k);
    ship.(hits := h, isSunk := AllTrue(h))
  }

  /** Ships are matched by name: every ship named `name` takes the hit at index `k`. */
  function StrikeNamed(ships: seq<Ship>, name: string, k: nat): seq<Ship> {
    seq(|ships|, i requires 0 <= i < |ships| => if ships[i].name == name then Struck(ships[i], k) else ships[i])
  }

  /** The first ship named `name`. */
  function FindNamed(ships: seq<Ship>, name: string): (r: Option<Ship>)
    ensures r.Some? ==> r.value in ships && r.value.name == name
    ensures r.None? ==> forall i :: 0 <= i < |ships| ==> ships[i].name != name
  {
    if ships == [] then None
    else if ships[0].name == name then Some(ships[0])
    else FindNamed(ships[1..], name)
  }

  function SetCell(board: seq<seq<Cell>>, r: nat, c: nat, cell: Cell): seq<seq<Cell>>
    requires r < |board| && c < |board[r]|
  {
    board[r := board[r][c := cell]]
  }

  /** The shot is taken: the game is on, the cell exists and has not been fired at. */
  predicate Accepted(row: int, col: int, gs: GameState) {
    && gs.gameStatus == Playing
    && InBounds(Position(row, col))
    && row < |gs.board| && col < |gs.board[row]|
    && !gs.board[row][col].isAttacked
  }

  /**
   * One shot at (`row`, `col`). The checks come in a fixed order: a finished
   * game, then coordinates off the board, then a cell missing from the board,
   * then a cell already fired at; each of these returns the state unchanged.
   * Otherwise the cell is marked, the shot counted, and the first ship (in
   * fleet order) holding the cell takes the hit. The victory text replaces
   * any other message when every ship is sunk after the shot.
   */
  function AttackCell(row: int, col: int, gs: GameState): (r: CellAttack)
    ensures gs.gameStatus == Won ==> r.result == GameOverResult
    ensures gs.gameStatus == Playing && !InBounds(Position(row, col)) ==> r.result == OutOfBoundsResult
    ensures gs.gameStatus == Playing && InBounds(Position(row, col)) && row < |gs.board| && col < |gs.board[row]|
              && gs.board[row][col].isAttacked
            ==> r.result == DuplicateResult
    ensures r.result in {HitResult, MissResult} <==> Accepted(row, col, gs)
    ensures !Accepted(row, col, gs) ==> r.gameState == gs
    ensures Accepted(row, col, gs) ==>
      && r.gameState.totalShots == gs.totalShots + 1
      && r.gameState.hits == gs.hits + (if r.result == HitResult then 1 else 0)
      && (r.result == HitResult <==> exists i :: 0 <= i < |gs.ships| && Position(row, col) in gs.ships[i].positions)
      && (r.gameState.gameStatus == Won <==> CheckGameWon(r.gameState.ships))
      && (r.message == VictoryMessage <==> r.gameState.gameStatus == Won)
  {
    if gs.gameStatus == Won then
      CellAttack(gs, GameOverResult, GameOverMessage)
    else if !InBounds(Position(row, col)) then
      CellAttack(gs, OutOfBoundsResult, OutOfBoundsMessage(row, col))
    else if row >= |gs.board| || col >= |gs.board[row]| then
      CellAttack(gs, OutOfBoundsResult, BadBoardMessage)
    else if gs.board[row][col].isAttacked then
      CellAttack(gs, DuplicateResult, DuplicateMessage)
    else
      var cell := gs.board[row][col].(isAttacked := true);
      match FirstStrike(CellsByShip(gs.ships, ShipCells), Position(row, col))
      case None =>
        var won := CheckGameWon(gs.ships);
        CellAttack(
          gs.(board := SetCell(gs.board, row, col, cell), totalShots := gs.totalShots + 1,
              gameStatus := if won then Won else Playing),
          MissResult,
          if won then VictoryMessage else MissMessage)
      case Some(s) =>
        var name := gs.ships[s.shipIndex].name;
        var ships := StrikeNamed(gs.ships, name, s.posIndex);
        var won := CheckGameWon(ships);
        var sunk := match FindNamed(ships, name) case Some(u) => u.isSunk case None => false;
        CellAttack(
          gs.(board := SetCell(gs.board, row, col, cell.(isHit := true, shipName := Some(name))),
              ships := ships, totalShots := gs.totalShots + 1, hits := gs.hits + 1,
              gameStatus := if won then Won else Playing),
          HitResult,
          if won then VictoryMessage else if sunk then SunkMessage(name) else HitMessage)
  }

  /** The ship and index the accepted shot at (`row`, `col`) strikes, if any. */
  function Target(row: int, col: int, gs: GameState): Option<Strike> {
    FirstStrike(CellsByShip(gs.ships, ShipCells), Position(row, col))
  }

  /**
   * An accepted shot changes exactly one cell of the board, which becomes
   * attacked; a hit also marks it hit with the struck ship's name, a miss
   * changes nothing else about it.
   */
  lemma AttackChangesOnlyTarget(row: int, col: int, gs: GameState)
    requires Accepted(row, col, gs)
    ensures var a := AttackCell(row, col, gs); var b := a.gameState.board;
      && |b| == |gs.board|
      && (forall r :: 0 <= r < |b| ==> |b[r]| == |gs.board[r]|)
      && (forall r, c :: 0 <= r < |b| && 0 <= c < |b[r]| && (r != row || c != col) ==> b[r][c] == gs.board[r][c])
      && b[row][col].isAttacked
      && (a.result == MissResult ==> b[row][col] == gs.board[row][col].(isAttacked := true))
      && (a.result == HitResult ==>
            && b[row][col].isHit
            && b[row][col].shipName == Some(gs.ships[Target(row, col, gs).value.shipIndex].name))
  {
  }

  /**
   * The fleet after an accepted shot: a miss leaves it as it was; a hit sets
   * the struck ship's flag at the cell's index (and no other flag) and
   * recomputes its `isSunk` from its flags; every ship of the same name
   * takes that same hit, while every ship with another name is unchanged.
   */
  lemma AttackStrikesShip(row: int, col: int, gs: GameState)
    requires Accepted(row, col, gs)
    ensures var a := AttackCell(row, col, gs); var ships := a.gameState.ships;
      && |ships| == |gs.ships|
      && (a.result == MissResult ==> ships == gs.ships)
      && (a.result == HitResult ==>
            var t := Target(row, col, gs).value;
            var name := gs.ships[t.shipIndex].name;
            && ships[t.shipIndex].hits[t.posIndex]
            && ships[t.shipIndex].hits == MarkHit(gs.ships[t.shipIndex].hits, t.posIndex)
            && ships[t.shipIndex].name == name
            && ships[t.shipIndex].positions == gs.ships[t.shipIndex].positions
            && ships[t.shipIndex].isSunk == CheckShipSunk(ships[t.shipIndex])
            && (forall j :: 0 <= j < |gs.ships| && gs.ships[j].name == name ==> ships[j] == Struck(gs.ships[j], t.posIndex))
            && (forall j :: 0 <= j < |gs.ships| && j != t.shipIndex && gs.ships[j].name != name ==> ships[j] == gs.ships[j]))
  {
  }

  /** No two ships share a name. */
  predicate DistinctNames(ships: seq<Ship>) {
    forall i, j :: 0 <= i < j < |ships| ==> ships[i].name != ships[j].name
  }

  /**
   * The message of an accepted shot that does not end the game: "Miss!" on a
   * miss; on a hit, the sunk text with the capitalised name when the struck
   * ship went down, otherwise the plain hit text. Ending the game always
   * gives the victory text instead.
   */
  lemma AttackMessages(row: int, col: int, gs: GameState)
    requires Accepted(row, col, gs) && DistinctNames(gs.ships)
    ensures var a := AttackCell(row, col, gs);
      && (a.gameState.gameStatus == Won ==> a.message == VictoryMessage)
      && (a.gameState.gameStatus == Playing && a.result == MissResult ==> a.message == MissMessage)
      && (a.gameState.gameStatus == Playing && a.result == HitResult ==>
            var t := Target(row, col, gs).value;
            var struck := a.gameState.ships[t.shipIndex];
            a.message == if struck.isSunk then SunkMessage(struck.name) else HitMessage)
  {
    var a := AttackCell(row, col, gs);
    if a.result == HitResult {
      var t := Target(row, col, gs).value;
      var name := gs.ships[t.shipIndex].name;
      var ships := StrikeNamed(gs.ships, name, t.posIndex);
      assert a.gameState.ships == ships;
      assert DistinctNames(ships) by {
        assert forall j :: 0 <= j < |ships| ==> ships[j].name == gs.ships[j].name;
      }
      FindNamedUnique(ships, t.shipIndex);
    }
  }

  /** With distinct names, the first ship named like ship `i` is ship `i`. */
  lemma {:induction false} FindNamedUnique(ships: seq<Ship>, i: nat)
    requires DistinctNames(ships) && i < |ships|
    ensures FindNamed(ships, ships[i].name) == Some(ships[i])
  {
    if i > 0 {
      assert ships[0].name != ships[i].name;
      assert DistinctNames(ships[1..]) by {
        forall a, b | 0 <= a < b < |ships[1..]| ensures ships[1..][a].name != ships[1..][b].name {
          assert ships[1..][a] == ships[a + 1] && ships[1..][b] == ships[b + 1];
        }
      }
      FindNamedUnique(ships[1..], i - 1);
    }
  }

  /**
   * The invariant every single-player state keeps: a full board, one flag
   * per cell of each ship, `isSunk` agreeing with the flags, distinct ship
   * names, hits never more than shots, and "won" only when every ship is sunk.
   */
  predicate WellFormed(gs: GameState) {
    && |gs.board| == BoardSize
    && (forall r :: 0 <= r < |gs.board| ==> |gs.board[r]| == BoardSize)
    && (forall i :: 0 <= i < |gs.ships| ==>
          |gs.ships[i].hits| == |gs.ships[i].positions| && gs.ships[i].isSunk == CheckShipSunk(gs.ships[i]))
    && DistinctNames(gs.ships)
    && 0 <= gs.hits <= gs.totalShots
    && (gs.gameStatus == Won ==> CheckGameWon(gs.ships))
  }

  /** A fresh game on a layout whose names are distinct starts well formed. */
  lemma NewGameWellFormed(layout: seq<ShipLayout>)
    requires forall i, j :: 0 <= i < j < |layout| ==> layout[i].ship != layout[j].ship
    ensures WellFormed(GameState(CreateEmptyBoard(), InitializeShips(layout), Playing, 0, 0))
  {
    var ships := InitializeShips(layout);
    ValidLayoutCharacterization(layout);
    forall i | 0 <= i < |ships|
      ensures |ships[i].hits| == |ships[i].positions| && ships[i].isSunk == CheckShipSunk(ships[i])
    {
      assert BuiltFrom(layout[i], ships[i]) && ShipShapeOk(layout[i]);
      assert !ships[i].hits[0];
    }
    assert DistinctNames(ships) by {
      forall i, j | 0 <= i < j < |ships| ensures ships[i].name != ships[j].name {
        assert BuiltFrom(layout[i], ships[i]) && BuiltFrom(layout[j], ships[j]);
      }
    }
  }

  /** One flag per cell of each ship, and `isSunk` agreeing with the flags. */
  predicate FlagsAgree(ships: seq<Ship>) {
    forall i :: 0 <= i < |ships| ==>
      |ships[i].hits| == |ships[i].positions| && ships[i].isSunk == CheckShipSunk(ships[i])
  }

  /** Striking the one ship named `name` at one of its cells keeps the flags in agreement and the names. */
  lemma StrikeKeepsFlagsAgree(ships: seq<Ship>, i: nat, k: nat)
    requires FlagsAgree(ships) && DistinctNames(ships)
    requires i < |ships| && k < |ships[i].positions|
    ensures var ships' := StrikeNamed(ships, ships[i].name, k);
      FlagsAgree(ships') && DistinctNames(ships')
  {
    var ships' := StrikeNamed(ships, ships[i].name, k);
    forall j | 0 <= j < |ships|
      ensures ships'[j] == if j == i then Struck(ships[i], k) else ships[j]
    {
      assert j != i ==> ships[j].name != ships[i].name;
    }
  }

  /** Every shot, accepted or not, keeps the invariant. */
  lemma AttackPreservesWellFormed(row: int, col: int, gs: GameState)
    requires WellFormed(gs)
    ensures WellFormed(AttackCell(row, col, gs).gameState)
  {
    if Accepted(row, col, gs) {
      AttackChangesOnlyTarget(row, col, gs);
      var a := AttackCell(row, col, gs);
      assert FlagsAgree(gs.ships);
      if a.result == HitResult {
        var t := Target(row, col, gs).value;
        StrikeKeepsFlagsAgree(gs.ships, t.shipIndex, t.posIndex);
        assert a.gameState.ships == StrikeNamed(gs.ships, gs.ships[t.shipIndex].name, t.posIndex);
      }
      assert FlagsAgree(a.gameState.ships);
    }
  }
}
