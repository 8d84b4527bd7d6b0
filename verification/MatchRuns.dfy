/** What every run of a game from its creation satisfies: the order of turns, the number of shots,
    and the agreement between the answers a player was given and the opponent's fog of war. */
module MatchRuns {
  import opened Ids
  import opened Options
  import opened Geometry
  import opened SeaState
  import opened MatchState

  // ----- Turns

  ghost function Misses(shots: seq<Shot>, g: Guid): nat {
    if shots == [] then 0
    else
      var last := shots[|shots| - 1];
      Misses(shots[..|shots| - 1], g) + if last.shooter == g && last.info.result == ShotResult.Miss then 1 else 0
  }

  // The starter is to move exactly when both have missed equally often; otherwise the starter
  // has missed once more. Hits keep the turn.
  ghost predicate TurnFollowsMisses(turn: Guid, shots: seq<Shot>, first: Guid, second: Guid) {
    && (turn == first <==> Misses(shots, first) == Misses(shots, second))
    && (turn != first ==> turn == second && Misses(shots, first) == Misses(shots, second) + 1)
  }

  lemma {:induction false} TurnsAlternate(one: Guid, two: Guid, first: Guid, ops: seq<Op>)
    requires first == one || first == two
    ensures var start := NewMatch(one, two, first);
      TurnFollowsMisses(Run(start, ops).turn, Shots(start, ops), first, if first == one then two else one)
    decreases |ops|
  {
    if ops != [] {
      var start, front, op := NewMatch(one, two, first), ops[..|ops| - 1], ops[|ops| - 1];
      var m, second := Run(start, front), if first == one then two else one;
      TurnsAlternate(one, two, first, front);
      RunKeepsInv(one, two, first, front);
      match op
      case ShootOp(g, x, y) => TurnAfterShot(m, Shots(start, front), first, second, g, x, y);
      case _ => QuietTurn(m, op);
    }
  }

  ghost function ShotOf(m: Match, op: Op): seq<Shot> {
    match op
    case ShootOp(g, x, y) => [Shot(g, Shoot(m, g, x, y).1)]
    case _ => []
  }

  lemma QuietTurn(m: Match, op: Op)
    requires !op.ShootOp?
    ensures Step(m, op).turn == m.turn
  {
  }

  // Only a Miss passes the turn, and it passes it to the other player.
  lemma ShotTurn(m: Match, g: Guid, x: int, y: int)
    requires Inv(m)
    ensures var (t, info) := Shoot(m, g, x, y);
      if info.result == ShotResult.Miss then g == m.turn && t.turn == Other(m) && m.one.guid != m.two.guid
      else t.turn == m.turn
  {
  }

  lemma TurnAfterShot(m: Match, shots: seq<Shot>, first: Guid, second: Guid, g: Guid, x: int, y: int)
    requires Inv(m) && TurnFollowsMisses(m.turn, shots, first, second)
    requires (first, second) == (m.one.guid, m.two.guid) || (first, second) == (m.two.guid, m.one.guid)
    ensures var (t, info) := Shoot(m, g, x, y);
      TurnFollowsMisses(t.turn, shots + [Shot(g, info)], first, second)
  {
    var info := Shoot(m, g, x, y).1;
    ShotTurn(m, g, x, y);
    assert (shots + [Shot(g, info)])[..|shots|] == shots;
    MissesGrow(shots, Shot(g, info), first);
    MissesGrow(shots, Shot(g, info), second);
  }

  lemma MissesGrow(shots: seq<Shot>, last: Shot, g: Guid)
    ensures Misses(shots + [last], g) ==
            Misses(shots, g) + if last.shooter == g && last.info.result == ShotResult.Miss then 1 else 0
  {
    assert (shots + [last])[..|shots|] == shots;
  }

  // Hence the misses of the two players never differ by more than one, and their parity names
  // the player to move.
  lemma MissParityIsTurn(one: Guid, two: Guid, first: Guid, ops: seq<Op>)
    requires first == one || first == two
    ensures var start := NewMatch(one, two, first);
      ParityNamesTurn(Run(start, ops).turn == first, Misses(Shots(start, ops), one), Misses(Shots(start, ops), two))
  {
    TurnsAlternate(one, two, first, ops);
    var start := NewMatch(one, two, first);
    ParityOf(Run(start, ops).turn, Shots(start, ops), one, two, first);
  }

  predicate ParityNamesTurn(startersTurn: bool, a: int, b: int) {
    -1 <= a - b <= 1 && (startersTurn <==> (a + b) % 2 == 0)
  }

  lemma ParityOf(turn: Guid, shots: seq<Shot>, one: Guid, two: Guid, first: Guid)
    requires first == one || first == two
    requires TurnFollowsMisses(turn, shots, first, if first == one then two else one)
    ensures ParityNamesTurn(turn == first, Misses(shots, one), Misses(shots, two))
  {
    var a: int, b: int := Misses(shots, one), Misses(shots, two);
    if turn == first {
      assert a + b == 2 * a;
    } else if first == one {
      assert a + b == 2 * b + 1;
    } else {
      assert a + b == 2 * a + 1;
    }
  }

  // ----- The number of shots

  ghost function AcceptedCount(shots: seq<Shot>): nat {
    if shots == [] then 0
    else AcceptedCount(shots[..|shots| - 1]) + if Accepted(shots[|shots| - 1].info.result) then 1 else 0
  }

  ghost function AttackedTotal(m: Match): nat {
    |m.one.sea.attacked| + |m.two.sea.attacked|
  }

  // One step never shrinks the attacked cells, and an accepted shot grows them.
  lemma StepGrowsAttacked(m: Match, op: Op)
    requires Inv(m)
    ensures AttackedTotal(m) + AcceptedCount(ShotOf(m, op)) <= AttackedTotal(Step(m, op))
  {
    match op
    case ShootOp(g, x, y) =>
      assert ShotOf(m, op)[..0] == [];
      if m.phase == Battle && m.turn == g {
        FireCounts(Target(m, g), Cell(x, y));
      }
    case _ =>
  }

  lemma AttackedTotalBound(m: Match)
    requires Inv(m)
    ensures AttackedTotal(m) <= 199
  {
    AttackedBound(m.one.sea);
    AttackedBound(m.two.sea);
    if m.one.ready {
      LegalIsAfloat(m.one.sea.fleet);
    }
    if m.two.ready {
      LegalIsAfloat(m.two.sea.fleet);
    }
  }

  lemma {:induction false} AcceptedSplit(a: seq<Shot>, b: seq<Shot>)
    ensures AcceptedCount(a + b) == AcceptedCount(a) + AcceptedCount(b)
    decreases |b|
  {
    if b == [] {
      assert a + b == a;
    } else {
      AcceptedSplit(a, b[..|b| - 1]);
      assert (a + b)[..|a + b| - 1] == a + b[..|b| - 1];
    }
  }

  lemma {:induction false} AcceptedWithinAttacked(one: Guid, two: Guid, first: Guid, ops: seq<Op>)
    requires first == one || first == two
    ensures var start := NewMatch(one, two, first);
      AcceptedCount(Shots(start, ops)) <= AttackedTotal(Run(start, ops))
    decreases |ops|
  {
    if ops != [] {
      var start, front, op := NewMatch(one, two, first), ops[..|ops| - 1], ops[|ops| - 1];
      AcceptedWithinAttacked(one, two, first, front);
      RunKeepsInv(one, two, first, front);
      StepGrowsAttacked(Run(start, front), op);
      AcceptedSplit(Shots(start, front), ShotOf(Run(start, front), op));
      assert Shots(start, front) + [] == Shots(start, front);
    }
  }

  // No game accepts more than 199 shots.
  lemma ShotBound(one: Guid, two: Guid, first: Guid, ops: seq<Op>)
    requires first == one || first == two
    ensures AcceptedCount(Shots(NewMatch(one, two, first), ops)) <= 199
  {
    AcceptedWithinAttacked(one, two, first, ops);
    RunKeepsInv(one, two, first, ops);
    AttackedTotalBound(Run(NewMatch(one, two, first), ops));
  }

  // ----- Replaying the answers

  type Chart = map<Cell, CellState>

  // A client that marks on an empty chart what one answer tells it.
  ghost function Marked(chart: Chart, info: ShotInfo): Chart {
    var c := Cell(info.x, info.y);
    match info.result
    case Miss => chart[c := CellState.Miss]
    case Hit => chart[c := CellState.Hit]
    case Kill =>
      if info.surrounding.None? then chart[c := CellState.Hit]
      else chart[c := CellState.Hit] + map d | d in info.surrounding.value :: CellState.Miss
    case _ => chart
  }

  ghost function Replay(shots: seq<Shot>, g: Guid): Chart {
    if shots == [] then map[]
    else
      var front, last := Replay(shots[..|shots| - 1], g), shots[|shots| - 1];
      if last.shooter == g then Marked(front, last.info) else front
  }

  ghost function Fog(s: Sea): Chart {
    map c | c in s.attacked :: View(s, c)
  }

  ghost predicate ChartsAreFog(m: Match, shots: seq<Shot>) {
    Replay(shots, m.one.guid) == Fog(m.two.sea) && Replay(shots, m.two.guid) == Fog(m.one.sea)
  }

  // After any run, each player's chart is the fog of war of the opponent's board: the same cells,
  // in the same states.
  lemma {:induction false} ReplayIsFog(one: Guid, two: Guid, first: Guid, ops: seq<Op>)
    requires first == one || first == two
    ensures var start := NewMatch(one, two, first);
      ChartsAreFog(Run(start, ops), Shots(start, ops))
    decreases |ops|
  {
    if ops != [] {
      var start, front, op := NewMatch(one, two, first), ops[..|ops| - 1], ops[|ops| - 1];
      ReplayIsFog(one, two, first, front);
      RunKeepsInv(one, two, first, front);
      var m := Run(start, front);
      StepKeepsPlayers(m, op);
      if op.ShootOp? {
        ReplayShot(m, Shots(start, front), op.guid, op.x, op.y);
      } else {
        QuietStep(m, op);
      }
    } else {
      assert Fog(OPEN_SEA) == map[];
    }
  }

  // Steps other than shots leave every fog as it was.
  lemma QuietStep(m: Match, op: Op)
    requires Inv(m) && !op.ShootOp?
    ensures Fog(Step(m, op).one.sea) == Fog(m.one.sea) && Fog(Step(m, op).two.sea) == Fog(m.two.sea)
  {
    assert forall a: Sea, b: Sea :: a.attacked == {} && b.attacked == {} ==> Fog(a) == Fog(b);
  }

  lemma ReplayShot(m: Match, shots: seq<Shot>, g: Guid, x: int, y: int)
    requires Inv(m) && ChartsAreFog(m, shots)
    ensures var (t, info) := Shoot(m, g, x, y); ChartsAreFog(t, shots + [Shot(g, info)])
  {
    var (t, info) := Shoot(m, g, x, y);
    assert (shots + [Shot(g, info)])[..|shots|] == shots;
    if m.phase == Battle && m.turn == g {
      MarkedIsFog(Target(m, g), Cell(x, y), info);
    }
  }

  // One answer carries a chart from the fog before the shot to the fog after it.
  lemma MarkedIsFog(s: Sea, c: Cell, info: ShotInfo)
    requires WellFormed(s)
    requires info.result == Fire(s, c).1 && Cell(info.x, info.y) == c
    requires info.result == Kill ==>
      Occupied(s.fleet, c) && info.surrounding == Some(Surround(s.fleet[ShipIndexAt(s.fleet, c)]))
    ensures Marked(Fog(s), info) == Fog(Fire(s, c).0)
  {
    var t := Fire(s, c).0;
    forall d ensures d in Marked(Fog(s), info) <==> d in Fog(t) {
    }
    forall d | d in Fog(t) ensures Marked(Fog(s), info)[d] == Fog(t)[d] {
      FireView(s, c, d);
    }
  }

  // Every surrounding cell reported with a kill is a Miss on the board after the shot.
  lemma SurroundingReportsAreMisses(m: Match, g: Guid, x: int, y: int, d: Cell)
    requires Inv(m)
    requires var info := Shoot(m, g, x, y).1; info.surrounding.Some? && d in info.surrounding.value
    ensures var (t, info) := Shoot(m, g, x, y);
      info.result == Kill && View(Target(t, g), d) == CellState.Miss
  {
    FireView(Target(m, g), Cell(x, y), d);
  }
}
