/**
 * The computer opponent: its difficulty table, how it picks a cell (the
 * queue of cells around earlier hits, a checkerboard scan on hard, or any
 * unattacked cell), and how a result updates its state.
 *
 * Randomness is passed in: `AIChoice.roll` stands for
 * `Math.floor(Math.random() * 100)` compared with the hit probability in
 * percent, and `AIChoice.pick` for the random index, taken modulo the
 * number of candidates.
 */
module ComputerPlayer {
  import opened Types
  import opened Combat

  // ---------------------------------------------------------------------------
  // Difficulty table

  /**
   * `initializeAI`: an empty queue, no hunt, the fleet's sizes to track,
   * and the settings of `difficulty`. Only easy plays at random and
   * ignores the queue; a harder opponent is more often optimal and waits
   * less between moves.
   */
  function InitializeAI(difficulty: Difficulty): (ai: AIState)
    ensures ai.targetQueue == [] && ai.lastHit == None && !ai.huntMode
    ensures |ai.shipSizes| == |ShipTypes| && forall i :: 0 <= i < |ShipTypes| ==> ai.shipSizes[i] == ShipTypes[i].size
    ensures ai.difficulty == difficulty
    ensures ai.smartTargeting <==> difficulty != Easy
    ensures ai.strategy == SmartStrategy <==> difficulty != Easy
    ensures ai.hitProbabilityPercent == (match difficulty case Easy => 30 case Medium => 70 case Hard => 90)
    ensures ai.delayBetweenMoves == (match difficulty case Easy => 2000 case Medium => 1500 case Hard => 1000)
  {
    var sizes := [5, 4, 3, 3, 2];
    match difficulty
    case Easy => AIState([], None, false, sizes, RandomStrategy, Easy, 30, false, 2000)
    case Medium => AIState([], None, false, sizes, SmartStrategy, Medium, 70, true, 1500)
    case Hard => AIState([], None, false, sizes, SmartStrategy, Hard, 90, true, 1000)
  }

  /** `a` is a harder setting than `b`. */
  predicate Harder(a: Difficulty, b: Difficulty) {
    (a == Hard && b != Hard) || (a == Medium && b == Easy)
  }

  /** A harder opponent is more often optimal and waits less between moves. */
  lemma HarderIsSharper(a: Difficulty, b: Difficulty)
    requires Harder(a, b)
    ensures InitializeAI(a).hitProbabilityPercent > InitializeAI(b).hitProbabilityPercent
    ensures InitializeAI(a).delayBetweenMoves < InitializeAI(b).delayBetweenMoves
  {
  }

  // ---------------------------------------------------------------------------
  // Neighbours and the target queue

  /** `q` is one step up, down, left or right of `p`. */
  predicate Adjacent(p: Position, q: Position) {
    || (q.col == p.col && (q.row == p.row - 1 || q.row == p.row + 1))
    || (q.row == p.row && (q.col == p.col - 1 || q.col == p.col + 1))
  }

  /** The cells of `ps` that lie on the board, in order. */
  function OnBoardOnly(ps: seq<Position>): (r: seq<Position>)
    ensures |r| <= |ps|
    ensures forall q :: q in r <==> q in ps && InBounds(q)
    ensures Distinct(ps) ==> Distinct(r)
  {
    if ps == [] then []
    else (if InBounds(ps[0]) then [ps[0]] else []) + OnBoardOnly(ps[1..])
  }

  /**
   * `getAdjacentPositions`: the on-board neighbours of `p`, in the order
   * up, down, left, right.
   */
  function GetAdjacentPositions(p: Position): (adj: seq<Position>)
    ensures forall q :: q in adj <==> InBounds(q) && Adjacent(p, q)
    ensures Distinct(adj) && |adj| <= 4
    ensures adj == OnBoardOnly([Position(p.row - 1, p.col), Position(p.row + 1, p.col),
                                Position(p.row, p.col - 1), Position(p.row, p.col + 1)])
  {
    var around := [Position(p.row - 1, p.col), Position(p.row + 1, p.col),
                   Position(p.row, p.col - 1), Position(p.row, p.col + 1)];
    assert Distinct(around);
    OnBoardOnly(around)
  }

  /**
   * The `forEach`/`some`/`push` loop of `updateAIState`: each cell of `ps`
   * not yet queued is appended. The old queue stays in front, nothing is
   * lost or invented, and a queue without repeats keeps none.
   */
  function Enqueue(queue: seq<Position>, ps: seq<Position>): (q: seq<Position>)
    ensures |queue| <= |q| && q[..|queue|] == queue
    ensures forall x :: x in q <==> x in queue || x in ps
    ensures Distinct(queue) ==> Distinct(q)
    decreases |ps|
  {
    if ps == [] then queue
    else if ps[0] in queue then Enqueue(queue, ps[1..])
    else
      var q := Enqueue(queue + [ps[0]], ps[1..]);
      assert (queue + [ps[0]])[..|queue|] == queue;
      q
  }

  /** Past the head of `ps`, a cell's index in `ps` is one more than its index in the tail. */
  lemma FindIndexInTail(ps: seq<Position>, x: Position)
    requires ps != [] && x != ps[0] && x in ps[1..]
    ensures FindIndex(ps, x) == FindIndex(ps[1..], x) + 1 >= 1
  {
  }

  /** The cells `Enqueue` appends were not queued before. */
  lemma {:induction false} EnqueueAppendsNew(queue: seq<Position>, ps: seq<Position>)
    ensures forall i :: |queue| <= i < |Enqueue(queue, ps)| ==> Enqueue(queue, ps)[i] !in queue
    decreases |ps|
  {
    if ps == [] {
    } else if ps[0] in queue {
      EnqueueAppendsNew(queue, ps[1..]);
    } else {
      var q0 := queue + [ps[0]];
      var q := Enqueue(q0, ps[1..]);
      EnqueueAppendsNew(q0, ps[1..]);
      assert q[|queue|] == ps[0];
    }
  }

  /** The cells of `s` come in the order they have in `ps`. */
  predicate InOrderOf(ps: seq<Position>, s: seq<Position>) {
    forall i, j :: 0 <= i < j < |s| ==> FindIndex(ps, s[i]) < FindIndex(ps, s[j])
  }

  /** Order in the tail of `ps` is order in `ps`. */
  lemma ShiftedOrder(ps: seq<Position>, s: seq<Position>)
    requires ps != [] && InOrderOf(ps[1..], s)
    requires forall i :: 0 <= i < |s| ==> FindIndex(ps, s[i]) == FindIndex(ps[1..], s[i]) + 1
    ensures InOrderOf(ps, s)
  {
    forall i, j | 0 <= i < j < |s|
      ensures FindIndex(ps, s[i]) < FindIndex(ps, s[j])
    {
      assert FindIndex(ps[1..], s[i]) < FindIndex(ps[1..], s[j]);
    }
  }

  /** The head of `ps` may go in front of cells that come later in `ps`. */
  lemma HeadFirst(ps: seq<Position>, s: seq<Position>)
    requires ps != [] && InOrderOf(ps, s)
    requires forall i :: 0 <= i < |s| ==> FindIndex(ps, s[i]) >= 1
    ensures InOrderOf(ps, [ps[0]] + s)
  {
    var s' := [ps[0]] + s;
    assert FindIndex(ps, ps[0]) == 0;
    forall i, j | 0 <= i < j < |s'|
      ensures FindIndex(ps, s'[i]) < FindIndex(ps, s'[j])
    {
      assert s'[j] == s[j - 1];
      if i > 0 {
        assert s'[i] == s[i - 1];
      }
    }
  }

  /** Cells of `s` that come from `ps` but are none of the cells of `q0`, which holds the head of `ps`. */
  lemma FromTail(ps: seq<Position>, q0: seq<Position>, s: seq<Position>)
    requires ps != [] && ps[0] in q0
    requires forall x :: x in s ==> x !in q0 && x in ps[1..]
    ensures forall i :: 0 <= i < |s| ==> FindIndex(ps, s[i]) == FindIndex(ps[1..], s[i]) + 1 >= 1
  {
    forall i | 0 <= i < |s|
      ensures FindIndex(ps, s[i]) == FindIndex(ps[1..], s[i]) + 1 >= 1
    {
      assert s[i] in s;
      FindIndexInTail(ps, s[i]);
    }
  }

  /** What `Enqueue(q0, ps)` appends to `q0` is new and comes from `ps`. */
  lemma Appended(q0: seq<Position>, ps: seq<Position>)
    ensures forall x :: x in Enqueue(q0, ps)[|q0|..] ==> x !in q0 && x in ps
  {
    var q := Enqueue(q0, ps);
    EnqueueAppendsNew(q0, ps);
    forall x | x in q[|q0|..]
      ensures x !in q0 && x in ps
    {
      var i :| 0 <= i < |q| - |q0| && q[|q0|..][i] == x;
      assert q[|q0|..][i] == q[|q0| + i] && q[|q0| + i] in q;
    }
  }

  /** With the head of `ps` already in `q0`, every cell `s` that `Enqueue(q0, ps[1..])` appends sits past the head of `ps`. */
  lemma AppendedFromTail(q0: seq<Position>, ps: seq<Position>, s: seq<Position>)
    requires ps != [] && ps[0] in q0
    requires s == Enqueue(q0, ps[1..])[|q0|..]
    ensures forall i :: 0 <= i < |s| ==> FindIndex(ps, s[i]) == FindIndex(ps[1..], s[i]) + 1 >= 1
  {
    Appended(q0, ps[1..]);
    FromTail(ps, q0, s);
  }

  /** The inductive step of `EnqueueAppendsInOrder` when the head of `ps` is already queued. */
  lemma OrderSkippingHead(queue: seq<Position>, ps: seq<Position>)
    requires ps != [] && ps[0] in queue
    requires InOrderOf(ps[1..], Enqueue(queue, ps[1..])[|queue|..])
    ensures InOrderOf(ps, Enqueue(queue, ps)[|queue|..])
  {
    assert Enqueue(queue, ps) == Enqueue(queue, ps[1..]);
    var tail := Enqueue(queue, ps[1..])[|queue|..];
    AppendedFromTail(queue, ps, tail);
    ShiftedOrder(ps, tail);
  }

  /** The inductive step of `EnqueueAppendsInOrder` when the head of `ps` is appended. */
  lemma OrderTakingHead(queue: seq<Position>, ps: seq<Position>)
    requires ps != [] && ps[0] !in queue
    requires InOrderOf(ps[1..], Enqueue(queue + [ps[0]], ps[1..])[|queue + [ps[0]]|..])
    ensures InOrderOf(ps, Enqueue(queue, ps)[|queue|..])
  {
    var q0 := queue + [ps[0]];
    assert q0[|queue|] == ps[0];
    var q := Enqueue(q0, ps[1..]);
    assert Enqueue(queue, ps) == q;
    var rest := q[|q0|..];
    AppendedFromTail(q0, ps, rest);
    ShiftedOrder(ps, rest);
    HeadFirst(ps, rest);
    assert InOrderOf(ps, [ps[0]] + rest);
    DropPrefix(q, queue, ps[0]);
    assert q[|queue|..] == [ps[0]] + rest;
  }

  /** A sequence that starts with `prefix + [x]` continues from `x`. */
  lemma DropPrefix<T>(q: seq<T>, prefix: seq<T>, x: T)
    requires |prefix| < |q| && q[..|prefix| + 1] == prefix + [x]
    ensures q[|prefix|..] == [x] + q[|prefix| + 1..]
  {
    assert q[|prefix|] == (prefix + [x])[|prefix|];
  }

  /** The cells `Enqueue` appends come in the order they have in `ps`. */
  lemma {:induction false} EnqueueAppendsInOrder(queue: seq<Position>, ps: seq<Position>)
    ensures InOrderOf(ps, Enqueue(queue, ps)[|queue|..])
    decreases |ps|
  {
    if ps == [] {
    } else if ps[0] in queue {
      EnqueueAppendsInOrder(queue, ps[1..]);
      OrderSkippingHead(queue, ps);
    } else {
      EnqueueAppendsInOrder(queue + [ps[0]], ps[1..]);
      OrderTakingHead(queue, ps);
    }
  }

  /** `indexOf` then `splice(index, 1)`: one occurrence of `x` leaves the list, if there is one. */
  function RemoveFirst(xs: seq<int>, x: int): (r: seq<int>)
    ensures x in xs ==> |r| == |xs| - 1 && multiset(r) == multiset(xs) - multiset{x}
    ensures x !in xs ==> r == xs
  {
    var k := FindIndex(xs, x);
    if k > -1 then
      assert xs == xs[..k] + [xs[k]] + xs[k + 1..];
      xs[..k] + xs[k + 1..]
    else xs
  }

  /** The settings of the opponent, which no move changes. */
  predicate SameSettings(a: AIState, b: AIState) {
    && a.strategy == b.strategy && a.difficulty == b.difficulty
    && a.hitProbabilityPercent == b.hitProbabilityPercent
    && a.smartTargeting == b.smartTargeting && a.delayBetweenMoves == b.delayBetweenMoves
  }

  /** Every queued cell lies on the board and none is queued twice. */
  predicate QueueOk(ai: AIState) {
    Distinct(ai.targetQueue) && forall q :: q in ai.targetQueue ==> InBounds(q)
  }

  /**
   * `updateAIState`. A hit that sinks nothing starts a hunt from
   * `position`: the queue keeps its cells in front and gains the on-board
   * neighbours not already queued (attacked or not). A sinking result ends
   * the hunt, empties the queue and drops one occurrence of the sunk ship's
   * size. Anything else leaves the state as it was.
   */
  function UpdateAIState(ai: AIState, position: Position, result: AttackResult): (r: AIState)
    ensures SameSettings(ai, r)
    ensures result.hit && result.shipSunk.None? ==>
      && r.huntMode && r.lastHit == Some(position) && r.shipSizes == ai.shipSizes
      && |ai.targetQueue| <= |r.targetQueue| && r.targetQueue[..|ai.targetQueue|] == ai.targetQueue
      && (forall q :: q in r.targetQueue <==> q in ai.targetQueue || (InBounds(q) && Adjacent(position, q)))
    ensures result.shipSunk.Some? ==>
      && !r.huntMode && r.lastHit == None && r.targetQueue == []
      && (result.shipSunk.value.size in ai.shipSizes ==>
            multiset(r.shipSizes) == multiset(ai.shipSizes) - multiset{result.shipSunk.value.size})
      && (result.shipSunk.value.size !in ai.shipSizes ==> r.shipSizes == ai.shipSizes)
    ensures !result.hit && result.shipSunk.None? ==> r == ai
    ensures QueueOk(ai) ==> QueueOk(r)
  {
    if result.hit && result.shipSunk.None? then
      ai.(huntMode := true, lastHit := Some(position),
          targetQueue := Enqueue(ai.targetQueue, GetAdjacentPositions(position)))
    else if result.shipSunk.Some? then
      ai.(huntMode := false, targetQueue := [], lastHit := None,
          shipSizes := RemoveFirst(ai.shipSizes, result.shipSunk.value.size))
    else ai
  }

  // ---------------------------------------------------------------------------
  // Candidate cells

  /** A `BoardSize` x `BoardSize` grid. */
  predicate IsGrid(g: seq<seq<Cell>>) {
    |g| == BoardSize && forall r :: 0 <= r < |g| ==> |g[r]| == BoardSize
  }

  /** The cells of the array `a`, row by row. */
  function GridOf(a: array2<Cell>): (g: seq<seq<Cell>>)
    reads a
    ensures |g| == a.Length0
    ensures forall r :: 0 <= r < |g| ==> |g[r]| == a.Length1
    ensures forall r, c :: 0 <= r < a.Length0 && 0 <= c < a.Length1 ==> g[r][c] == a[r, c]
  {
    seq(a.Length0, r requires 0 <= r < a.Length0 reads a =>
      seq(a.Length1, c requires 0 <= c < a.Length1 reads a => a[r, c]))
  }

  /** Cell (`r`, `c`) is unattacked and, when `parityOnly`, on the even squares of the checkerboard. */
  predicate IsTarget(g: seq<seq<Cell>>, r: nat, c: nat, parityOnly: bool)
    requires IsGrid(g) && r < BoardSize && c < BoardSize
  {
    !g[r][c].isAttacked && (!parityOnly || (r + c) % 2 == 0)
  }

  /** `p` comes before `q` when the board is read row by row. */
  predicate RowMajorBefore(p: Position, q: Position) {
    p.row < q.row || (p.row == q.row && p.col < q.col)
  }

  /** The targets in row `r` among its first `n` columns, left to right. */
  function RowTargets(g: seq<seq<Cell>>, r: nat, n: nat, parityOnly: bool): (t: seq<Position>)
    requires IsGrid(g) && r < BoardSize && n <= BoardSize
    ensures forall p :: p in t <==> p.row == r && 0 <= p.col < n && IsTarget(g, r, p.col, parityOnly)
    ensures forall i, j :: 0 <= i < j < |t| ==> RowMajorBefore(t[i], t[j])
  {
    if n == 0 then []
    else RowTargets(g, r, n - 1, parityOnly) + (if IsTarget(g, r, n - 1, parityOnly) then [Position(r, n - 1)] else [])
  }

  /** The targets in the first `n` rows, in row-major order. */
  function Targets(g: seq<seq<Cell>>, n: nat, parityOnly: bool): (t: seq<Position>)
    requires IsGrid(g) && n <= BoardSize
    ensures forall p :: p in t <==>
      0 <= p.row < n && 0 <= p.col < BoardSize && IsTarget(g, p.row, p.col, parityOnly)
    ensures forall i, j :: 0 <= i < j < |t| ==> RowMajorBefore(t[i], t[j])
  {
    if n == 0 then []
    else
      var front := Targets(g, n - 1, parityOnly);
      var last := RowTargets(g, n - 1, BoardSize, parityOnly);
      assert forall i, j :: 0 <= i < |front| && 0 <= j < |last| ==> front[i] in front && last[j] in last;
      front + last
  }

  /**
   * The loops of `getStrategicTarget` (with `parityOnly`) and
   * `findRandomValidTarget` (without): every target, row by row.
   */
  method CollectTargets(attackBoard: array2<Cell>, parityOnly: bool) returns (validTargets: seq<Position>)
    requires attackBoard.Length0 == BoardSize && attackBoard.Length1 == BoardSize
    ensures validTargets == Targets(GridOf(attackBoard), BoardSize, parityOnly)
  {
    ghost var g := GridOf(attackBoard);
    validTargets := [];
    var row := 0;
    while row < BoardSize
      invariant 0 <= row <= BoardSize
      invariant validTargets == Targets(g, row, parityOnly)
    {
      var col := 0;
      while col < BoardSize
        invariant 0 <= col <= BoardSize
        invariant validTargets == Targets(g, row, parityOnly) + RowTargets(g, row, col, parityOnly)
      {
        assert g[row][col] == attackBoard[row, col];
        if !attackBoard[row, col].isAttacked {
          if !parityOnly || (row + col) % 2 == 0 {
            validTargets := validTargets + [Position(row, col)];
          }
        }
        col := col + 1;
      }
      assert Targets(g, row + 1, parityOnly) == Targets(g, row, parityOnly) + RowTargets(g, row, BoardSize, parityOnly);
      row := row + 1;
    }
  }

  /** `candidates[Math.floor(Math.random() * candidates.length)]`. */
  function Pick(candidates: seq<Position>, pick: nat): (p: Position)
    requires candidates != []
    ensures p in candidates
  {
    candidates[pick % |candidates|]
  }

  /**
   * `getStrategicTarget`: only a hard opponent has one, an unattacked cell
   * with an even `row + col`; without such a cell there is none.
   */
  function StrategicTarget(g: seq<seq<Cell>>, ai: AIState, pick: nat): (r: Option<Position>)
    requires IsGrid(g)
    ensures r.Some? ==>
      && ai.difficulty == Hard && InBounds(r.value)
      && !g[r.value.row][r.value.col].isAttacked && (r.value.row + r.value.col) % 2 == 0
    ensures r.None? <==>
      || ai.difficulty != Hard
      || !exists row: nat, col: nat :: row < BoardSize && col < BoardSize && IsTarget(g, row, col, true)
  {
    if ai.difficulty != Hard then None
    else
      var t := Targets(g, BoardSize, true);
      if t == [] then
        assert forall row: nat, col: nat :: row < BoardSize && col < BoardSize && IsTarget(g, row, col, true) ==>
          Position(row, col) in t;
        None
      else
        var p := Pick(t, pick);
        Some(p)
  }

  method GetStrategicTarget(attackBoard: array2<Cell>, ai: AIState, pick: nat) returns (r: Option<Position>)
    requires attackBoard.Length0 == BoardSize && attackBoard.Length1 == BoardSize
    ensures r == StrategicTarget(GridOf(attackBoard), ai, pick)
  {
    if ai.difficulty != Hard {
      return None;
    }
    var validTargets := CollectTargets(attackBoard, true);
    if |validTargets| == 0 {
      return None;
    }
    r := Some(validTargets[pick % |validTargets|]);
  }

  /**
   * `findRandomValidTarget`: a random unattacked cell. On a full grid the
   * code returns `undefined` and the attack that follows fails, so a free
   * cell is required.
   */
  method FindRandomValidTarget(attackBoard: array2<Cell>, pick: nat) returns (p: Position)
    requires attackBoard.Length0 == BoardSize && attackBoard.Length1 == BoardSize
    requires exists r, c :: 0 <= r < BoardSize && 0 <= c < BoardSize && !attackBoard[r, c].isAttacked
    ensures Targets(GridOf(attackBoard), BoardSize, false) != []
    ensures p == Pick(Targets(GridOf(attackBoard), BoardSize, false), pick)
    ensures InBounds(p) && !attackBoard[p.row, p.col].isAttacked
  {
    var validTargets := CollectTargets(attackBoard, false);
    var r, c :| 0 <= r < BoardSize && 0 <= c < BoardSize && !attackBoard[r, c].isAttacked;
    assert Position(r, c) in validTargets;
    p := validTargets[pick % |validTargets|];
  }

  // ---------------------------------------------------------------------------
  // One computer move

  /** The random draws of one move. */
  datatype AIChoice = AIChoice(roll: nat, pick: nat)

  /** `Math.random() < hitProbability`, with the draw as a percentage. */
  predicate Optimal(ai: AIState, choice: AIChoice) {
    choice.roll % 100 < ai.hitProbabilityPercent
  }

  /** The queue decides the move. */
  predicate FromQueue(ai: AIState, choice: AIChoice) {
    Optimal(ai, choice) && ai.smartTargeting && ai.targetQueue != []
  }

  /** A move can be chosen: from the queue, or among unattacked cells. */
  predicate CanAim(g: seq<seq<Cell>>, ai: AIState, choice: AIChoice)
    requires IsGrid(g)
  {
    FromQueue(ai, choice) || Targets(g, BoardSize, false) != []
  }

  /** The cell a move aims at, and the state after the queue is consulted. */
  datatype Aim = Aim(target: Position, ai: AIState)

  /**
   * The target choice of `makeComputerAttack`. From the queue, the head is
   * taken and removed. Otherwise, an optimal smart move tries the
   * checkerboard target and falls back to a random unattacked cell, as does
   * every other move. Only the queue can aim at an attacked cell, and only
   * the queue changes the state.
   */
  function ChooseTarget(g: seq<seq<Cell>>, ai: AIState, choice: AIChoice): (a: Aim)
    requires IsGrid(g) && CanAim(g, ai, choice)
    ensures FromQueue(ai, choice) ==>
      a.target == ai.targetQueue[0] && a.ai == ai.(targetQueue := ai.targetQueue[1..])
    ensures !FromQueue(ai, choice) ==>
      a.ai == ai && InBounds(a.target) && !g[a.target.row][a.target.col].isAttacked
    ensures (forall q :: q in ai.targetQueue ==> InBounds(q)) ==> InBounds(a.target)
    ensures
      (!FromQueue(ai, choice) && Optimal(ai, choice) && ai.strategy == SmartStrategy &&
       StrategicTarget(g, ai, choice.pick).Some?) ==>
      (a.target.row + a.target.col) % 2 == 0
    ensures !ai.smartTargeting && ai.strategy == RandomStrategy ==>
      a.target == Pick(Targets(g, BoardSize, false), choice.pick) && a.ai == ai
  {
    if FromQueue(ai, choice) then
      Aim(ai.targetQueue[0], ai.(targetQueue := ai.targetQueue[1..]))
    else if Optimal(ai, choice) && ai.strategy == SmartStrategy then
      match StrategicTarget(g, ai, choice.pick)
      case Some(p) => Aim(p, ai)
      case None => Aim(Pick(Targets(g, BoardSize, false), choice.pick), ai)
    else
      Aim(Pick(Targets(g, BoardSize, false), choice.pick), ai)
  }

  /** The first half of `makeComputerAttack`: the target, and the state once the queue is consulted. */
  method SelectTarget(computerAttacks: array2<Cell>, ai: AIState, choice: AIChoice)
    returns (position: Position, state: AIState)
    requires computerAttacks.Length0 == BoardSize && computerAttacks.Length1 == BoardSize
    requires CanAim(GridOf(computerAttacks), ai, choice)
    ensures Aim(position, state) == ChooseTarget(GridOf(computerAttacks), ai, choice)
  {
    state := ai;
    var shouldMakeOptimalMove := choice.roll % 100 < ai.hitProbabilityPercent;
    if shouldMakeOptimalMove && ai.smartTargeting && |ai.targetQueue| > 0 {
      position := state.targetQueue[0];
      state := state.(targetQueue := state.targetQueue[1..]);
    } else if shouldMakeOptimalMove && ai.strategy == SmartStrategy {
      SomeCellFree(computerAttacks);
      var strategic := GetStrategicTarget(computerAttacks, ai, choice.pick);
      if strategic.Some? {
        position := strategic.value;
      } else {
        position := FindRandomValidTarget(computerAttacks, choice.pick);
      }
    } else {
      SomeCellFree(computerAttacks);
      position := FindRandomValidTarget(computerAttacks, choice.pick);
    }
  }

  /** A grid with a target left has an unattacked cell. */
  lemma SomeCellFree(a: array2<Cell>)
    requires a.Length0 == BoardSize && a.Length1 == BoardSize
    requires Targets(GridOf(a), BoardSize, false) != []
    ensures exists r, c :: 0 <= r < BoardSize && 0 <= c < BoardSize && !a[r, c].isAttacked
  {
    var t := Targets(GridOf(a), BoardSize, false)[0];
    assert t in Targets(GridOf(a), BoardSize, false);
    assert GridOf(a)[t.row][t.col] == a[t.row, t.col];
  }

  /**
   * `makeComputerAttack`: choose a target, attack it on the player's board
   * as `attackPosition` does, and update the state from the result. The
   * queue holds on-board cells only. A hit marks a cell that was not
   * attacked before, so the unattacked cells become fewer.
   */
  method MakeComputerAttack(playerBoard: PlayerBoard, computerAttacks: array2<Cell>, ai: AIState, choice: AIChoice)
    returns (position: Position, result: AttackResult, newAI: AIState)
    requires computerAttacks.Length0 == BoardSize && computerAttacks.Length1 == BoardSize
    requires forall q :: q in ai.targetQueue ==> InBounds(q)
    requires CanAim(GridOf(computerAttacks), ai, choice)
    modifies playerBoard, computerAttacks
    ensures var aim := ChooseTarget(old(GridOf(computerAttacks)), ai, choice);
      && position == aim.target
      && newAI == UpdateAIState(aim.ai, position, result)
    ensures InBounds(position)
    ensures var s := ResolveAttack(position, old(playerBoard.ships), old(computerAttacks[position.row, position.col]));
      && result == s.result
      && playerBoard.ships == s.ships
      && computerAttacks[position.row, position.col] == s.cell
    ensures playerBoard.attacks == old(playerBoard.attacks)
    ensures forall r, c ::
      0 <= r < BoardSize && 0 <= c < BoardSize && (r != position.row || c != position.col) ==>
      computerAttacks[r, c] == old(computerAttacks[r, c])
    ensures result.hit ==> Unattacked(GridOf(computerAttacks)) < old(Unattacked(GridOf(computerAttacks)))
  {
    ghost var g := GridOf(computerAttacks);
    var state;
    position, state := SelectTarget(computerAttacks, ai, choice);
    ghost var cell := computerAttacks[position.row, position.col];
    assert cell == g[position.row][position.col];
    result := AttackPosition(position, playerBoard, computerAttacks);
    newAI := UpdateAIState(state, position, result);
    if result.hit {
      assert !cell.isAttacked && computerAttacks[position.row, position.col].isAttacked;
      ShotShrinksUnattacked(g, computerAttacks, position);
    }
  }

  // ---------------------------------------------------------------------------
  // Progress

  /** The unattacked cells of a grid. */
  function Unattacked(g: seq<seq<Cell>>): (s: set<Position>)
    requires IsGrid(g)
    ensures forall p :: p in s <==> InBounds(p) && !g[p.row][p.col].isAttacked
  {
    set r: int, c: int | 0 <= r < BoardSize && 0 <= c < BoardSize && !g[r][c].isAttacked :: Position(r, c)
  }

  /**
   * Attacking an unattacked cell, and touching no other cell, leaves
   * strictly fewer unattacked cells: a hit always makes progress.
   */
  lemma AttackShrinksUnattacked(g: seq<seq<Cell>>, g': seq<seq<Cell>>, p: Position)
    requires IsGrid(g) && IsGrid(g') && InBounds(p)
    requires !g[p.row][p.col].isAttacked && g'[p.row][p.col].isAttacked
    requires forall r, c :: 0 <= r < BoardSize && 0 <= c < BoardSize && (r != p.row || c != p.col) ==>
      g'[r][c] == g[r][c]
    ensures Unattacked(g') < Unattacked(g)
  {
    assert p in Unattacked(g) && p !in Unattacked(g');
    forall q | q in Unattacked(g') ensures q in Unattacked(g) {
      assert q != p;
    }
  }

  /** The same, for the attack grid `a` after a shot at `p` on a grid that was `g`. */
  lemma ShotShrinksUnattacked(g: seq<seq<Cell>>, a: array2<Cell>, p: Position)
    requires IsGrid(g) && a.Length0 == BoardSize && a.Length1 == BoardSize && InBounds(p)
    requires !g[p.row][p.col].isAttacked && a[p.row, p.col].isAttacked
    requires forall r, c ::
      0 <= r < BoardSize && 0 <= c < BoardSize && (r != p.row || c != p.col) ==>
      a[r, c] == g[r][c]
    ensures Unattacked(GridOf(a)) < Unattacked(g)
  {
    AttackShrinksUnattacked(g, GridOf(a), p);
  }
}
