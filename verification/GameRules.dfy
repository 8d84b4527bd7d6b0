/** The placement validator, and what its verdict means. */
module GameRules {
  import opened Geometry

  const TOTAL_SHIPS := 10

  datatype Verdict = Legal | WrongTotal | WrongCounts | OutOfBounds | Touching

  function SizeCount(ships: seq<Placement>, size: int): nat {
    if ships == [] then 0
    else SizeCount(ships[..|ships| - 1], size) + if ships[|ships| - 1].size == size then 1 else 0
  }

  predicate CountsMatch(ships: seq<Placement>) {
    SizeCount(ships, 4) == 1 && SizeCount(ships, 3) == 2 && SizeCount(ships, 2) == 3 && SizeCount(ships, 1) == 4
  }

  // Bounds as the source tests them: the first cell from below, the last cell from above.
  predicate InBounds(p: Placement) {
    && 0 <= p.x && 0 <= p.y
    && (if p.horizontal then p.x + p.size - 1 else p.x) < BOARD_SIZE
    && (if p.horizontal then p.y else p.y + p.size - 1) < BOARD_SIZE
  }

  // The verdict on a list of ships, by the first rule that it breaks.
  ghost function Judge(ships: seq<Placement>): Verdict {
    if |ships| != TOTAL_SHIPS then WrongTotal
    else if !CountsMatch(ships) then WrongCounts
    else if !forall i :: 0 <= i < |ships| ==> InBounds(ships[i]) then OutOfBounds
    else if !NoTouch(ships) then Touching
    else Legal
  }

  ghost predicate LegalFleet(ships: seq<Placement>) {
    Judge(ships) == Legal
  }

  method CheckShipCounts(ships: seq<Placement>) returns (ok: bool)
    ensures ok <==> CountsMatch(ships)
  {
    var counts: map<int, int> := map[];
    for i := 0 to |ships|
      invariant forall n :: SizeCount(ships[..i], n) == if n in counts then counts[n] else 0
    {
      var size := ships[i].size;
      counts := counts[size := (if size in counts then counts[size] else 0) + 1];
      assert ships[..i + 1][..i] == ships[..i];
    }
    assert ships[..|ships|] == ships;
    // Reading a missing key of the source's map gives zero.
    ok := && (4 in counts && counts[4] == 1) && (3 in counts && counts[3] == 2)
          && (2 in counts && counts[2] == 3) && (1 in counts && counts[1] == 4);
  }

  method CheckBounds(ships: seq<Placement>) returns (ok: bool)
    ensures ok <==> forall i :: 0 <= i < |ships| ==> InBounds(ships[i])
  {
    for i := 0 to |ships|
      invariant forall k :: 0 <= k < i ==> InBounds(ships[k])
    {
      var ship := ships[i];
      if ship.x < 0 || ship.y < 0 {
        return false;
      }
      var endX := if ship.horizontal then ship.x + ship.size - 1 else ship.x;
      var endY := if ship.horizontal then ship.y else ship.y + ship.size - 1;
      if endX >= BOARD_SIZE || endY >= BOARD_SIZE {
        return false;
      }
    }
    return true;
  }

  // Some cell of one of the ships equals or touches c.
  ghost predicate NearSome(ships: seq<Placement>, c: Cell) {
    exists k, b :: 0 <= k < |ships| && Covers(ships[k], b) && Near(b, c)
  }

  method CheckOverlapAndTouching(ships: seq<Placement>) returns (ok: bool)
    ensures ok <==> NoTouch(ships)
  {
    var forbidden: set<Cell> := {};
    for i := 0 to |ships|
      invariant forall c :: c in forbidden <==> NearSome(ships[..i], c)
      invariant NoTouch(ships[..i])
    {
      var ship := ships[i];
      var shipCells := if ship.size <= 0 then [] else CellList(ship);
      CellsOfAny(ship);
      for k := 0 to |shipCells|
        invariant forall j :: 0 <= j < k ==> shipCells[j] !in forbidden
      {
        if shipCells[k] in forbidden {
          TouchingPair(ships, i, shipCells[k]);
          return false;
        }
      }
      OneMoreApart(ships, i, shipCells);
      forbidden := ForbidCells(shipCells, forbidden);
      NearOneMore(ships[..i], ship, shipCells);
      assert ships[..i] + [ship] == ships[..i + 1];
    }
    assert ships[..|ships|] == ships;
    return true;
  }

  method ForbidCells(shipCells: seq<Cell>, before: set<Cell>) returns (forbidden: set<Cell>)
    ensures forall c :: c in forbidden <==> c in before || exists j :: 0 <= j < |shipCells| && Near(shipCells[j], c)
  {
    forbidden := before;
    for k := 0 to |shipCells|
      invariant forall c :: c in forbidden <==> c in before || exists j :: 0 <= j < k && Near(shipCells[j], c)
    {
      forbidden := ForbidAround(shipCells[k], forbidden);
    }
  }

  method ForbidAround(cell: Cell, before: set<Cell>) returns (forbidden: set<Cell>)
    ensures forall c :: c in forbidden <==> c in before || Near(cell, c)
  {
    forbidden := before;
    for dx := -1 to 2
      invariant forall c :: c in forbidden <==> c in before || (Near(cell, c) && c.x - cell.x < dx)
    {
      for dy := -1 to 2
        invariant forall c :: c in forbidden <==>
          c in before || (Near(cell, c) && (c.x - cell.x < dx || (c.x - cell.x == dx && c.y - cell.y < dy)))
      {
        forbidden := forbidden + {Cell(cell.x + dx, cell.y + dy)};
      }
    }
  }

  lemma CellsOfAny(p: Placement)
    ensures forall c :: c in (if p.size <= 0 then [] else CellList(p)) <==> Covers(p, c)
  {
    if 0 < p.size {
      forall c ensures c in CellList(p) <==> Covers(p, c) {
        CoversIsListed(p, c);
      }
    }
  }

  lemma TouchingPair(ships: seq<Placement>, i: nat, c: Cell)
    requires i < |ships| && Covers(ships[i], c) && NearSome(ships[..i], c)
    ensures !NoTouch(ships)
  {
    var k, b :| 0 <= k < i && Covers(ships[..i][k], b) && Near(b, c);
    assert !Apart(ships[k], ships[i]);
  }

  lemma OneMoreApart(ships: seq<Placement>, i: nat, cells: seq<Cell>)
    requires i < |ships| && NoTouch(ships[..i])
    requires forall c :: c in cells <==> Covers(ships[i], c)
    requires forall j :: 0 <= j < |cells| ==> !NearSome(ships[..i], cells[j])
    ensures NoTouch(ships[..i + 1])
  {
    forall k | 0 <= k < i ensures Apart(ships[k], ships[i]) {
      forall a, b | Covers(ships[k], a) && Covers(ships[i], b) ensures !Near(a, b) {
        assert b in cells && Covers(ships[..i][k], a);
      }
    }
    forall k, j | 0 <= k < j < i ensures Apart(ships[k], ships[j]) {
      assert Apart(ships[..i][k], ships[..i][j]);
    }
  }

  lemma NearOneMore(before: seq<Placement>, ship: Placement, cells: seq<Cell>)
    requires forall c :: c in cells <==> Covers(ship, c)
    ensures forall c :: NearSome(before + [ship], c) <==>
              NearSome(before, c) || exists j :: 0 <= j < |cells| && Near(cells[j], c)
  {
    var all := before + [ship];
    forall c ensures NearSome(all, c) <==> NearSome(before, c) || exists j :: 0 <= j < |cells| && Near(cells[j], c) {
      if NearSome(all, c) {
        var k, b :| 0 <= k < |all| && Covers(all[k], b) && Near(b, c);
        if k < |before| {
          assert Covers(before[k], b);
        } else {
          assert b in cells;
        }
      }
      if NearSome(before, c) {
        var k, b :| 0 <= k < |before| && Covers(before[k], b) && Near(b, c);
        assert Covers(all[k], b);
      }
      if j :| 0 <= j < |cells| && Near(cells[j], c) {
        assert cells[j] in cells && Covers(all[|before|], cells[j]);
      }
    }
  }

  method ValidatePlacement(ships: seq<Placement>) returns (v: Verdict)
    ensures v == Judge(ships)
  {
    if |ships| != TOTAL_SHIPS {
      return WrongTotal;
    }
    var counts := CheckShipCounts(ships);
    if !counts {
      return WrongCounts;
    }
    var bounds := CheckBounds(ships);
    if !bounds {
      return OutOfBounds;
    }
    var apart := CheckOverlapAndTouching(ships);
    return if apart then Legal else Touching;
  }

  // ----- What a legal fleet is

  lemma {:induction false} CountsTotal(ships: seq<Placement>, i: nat)
    requires i < |ships|
    ensures SizeCount(ships, 4) + SizeCount(ships, 3) + SizeCount(ships, 2) + SizeCount(ships, 1) <= |ships|
    ensures !(1 <= ships[i].size <= 4) ==>
              SizeCount(ships, 4) + SizeCount(ships, 3) + SizeCount(ships, 2) + SizeCount(ships, 1) < |ships|
    decreases |ships|
  {
    var front := ships[..|ships| - 1];
    if front != [] {
      CountsTotal(front, if i < |front| then i else 0);
    }
  }

  // The four counts and the total leave no room for a ship of any other size.
  lemma SizesAreLegal(ships: seq<Placement>)
    requires |ships| == TOTAL_SHIPS && CountsMatch(ships)
    ensures forall i :: 0 <= i < |ships| ==> 1 <= ships[i].size <= 4
  {
    forall i | 0 <= i < |ships| ensures 1 <= ships[i].size <= 4 {
      CountsTotal(ships, i);
    }
  }

  lemma BoundsMeanFits(p: Placement)
    requires 1 <= p.size
    ensures InBounds(p) <==> Fits(p)
  {
    if Fits(p) {
      assert Covers(p, CellAt(p, 0)) && Covers(p, CellAt(p, p.size - 1));
    }
  }

  // The ships can be put down one after the other, each by the rule of the board.
  ghost predicate PlacesInTurn(ships: seq<Placement>) {
    ships == [] || (PlacesInTurn(ships[..|ships| - 1]) && CanJoin(ships[..|ships| - 1], ships[|ships| - 1]))
  }

  lemma {:induction false} InTurnIsPairwise(ships: seq<Placement>)
    ensures PlacesInTurn(ships) <==> NoTouch(ships) && forall i :: 0 <= i < |ships| ==> Fits(ships[i])
    decreases |ships|
  {
    if ships != [] {
      var front, last := ships[..|ships| - 1], ships[|ships| - 1];
      InTurnIsPairwise(front);
      if NoTouch(ships) {
        forall i | 0 <= i < |front| ensures Apart(front[i], last) {
          assert Apart(ships[i], ships[|ships| - 1]);
        }
      }
      if PlacesInTurn(ships) {
        forall i, j | 0 <= i < j < |ships| ensures Apart(ships[i], ships[j]) {
          assert ships[i] == front[i];
        }
        forall i | 0 <= i < |ships| ensures Fits(ships[i]) {
          assert i < |front| ==> ships[i] == front[i];
        }
      }
    }
  }

  // For every list that passes the counts, the validator's verdict, the ship-by-ship placer
  // and the pairwise rule agree.
  lemma ValidatorAgreesWithPlacer(ships: seq<Placement>)
    requires |ships| == TOTAL_SHIPS && CountsMatch(ships)
    ensures LegalFleet(ships) <==> PlacesInTurn(ships)
    ensures LegalFleet(ships) <==> WellPlaced(ships)
  {
    SizesAreLegal(ships);
    forall i | 0 <= i < |ships| ensures InBounds(ships[i]) <==> Fits(ships[i]) {
      BoundsMeanFits(ships[i]);
    }
    InTurnIsPairwise(ships);
  }

  // A legal fleet can be placed ship by ship on a cleared board: no step of it is refused.
  lemma LegalNeverRefused(ships: seq<Placement>, k: nat)
    requires LegalFleet(ships) && k < |ships|
    ensures CanJoin(ships[..k], ships[k]) && 1 <= ships[k].size <= 4 && WellPlaced(ships)
  {
    ValidatorAgreesWithPlacer(ships);
    SizesAreLegal(ships);
    forall i | 0 <= i < k ensures Apart(ships[..k][i], ships[k]) {
      assert Apart(ships[i], ships[k]);
    }
  }

  // ----- The verdict does not depend on the order of the list

  lemma {:induction false} Occurrences<T>(s: seq<T>, i: nat, j: nat)
    requires i < j < |s| && s[i] == s[j]
    ensures multiset(s)[s[i]] >= 2
  {
    assert s == s[..i] + [s[i]] + s[i + 1..j] + [s[j]] + s[j + 1..];
  }

  lemma TwoPlaces<T>(s: seq<T>, v: T) returns (i: nat, j: nat)
    requires multiset(s)[v] >= 2
    ensures i < j < |s| && s[i] == v && s[j] == v
  {
    assert v in s;
    i :| 0 <= i < |s| && s[i] == v;
    var rest := s[..i] + s[i + 1..];
    assert s == s[..i] + [v] + s[i + 1..];
    assert multiset(s) == multiset(rest) + multiset{v};
    assert v in rest;
    var k :| 0 <= k < |rest| && rest[k] == v;
    if k < i {
      i, j := k, i;
    } else {
      j := k + 1;
    }
  }

  // The touching rule over the collection of ships, whatever their order.
  ghost predicate PairwiseApart(ships: multiset<Placement>) {
    forall p, q :: p in ships && q in ships && (p != q || ships[p] >= 2) ==> Apart(p, q)
  }

  lemma NoTouchIsUnordered(ships: seq<Placement>)
    ensures NoTouch(ships) <==> PairwiseApart(multiset(ships))
  {
    if NoTouch(ships) {
      forall p, q | p in multiset(ships) && q in multiset(ships) && (p != q || multiset(ships)[p] >= 2)
        ensures Apart(p, q)
      {
        if p == q {
          var i, j := TwoPlaces(ships, p);
          assert Apart(ships[i], ships[j]);
        } else {
          assert p in ships && q in ships;
          var i :| 0 <= i < |ships| && ships[i] == p;
          var j :| 0 <= j < |ships| && ships[j] == q;
          assert if i < j then Apart(ships[i], ships[j]) else Apart(ships[j], ships[i]);
          forall a, b | Covers(p, a) && Covers(q, b) ensures !Near(a, b) {
            assert !Near(b, a) || !Near(a, b);
          }
        }
      }
    }
    if PairwiseApart(multiset(ships)) {
      forall i, j | 0 <= i < j < |ships| ensures Apart(ships[i], ships[j]) {
        assert ships[i] in multiset(ships) && ships[j] in multiset(ships);
        if ships[i] == ships[j] {
          Occurrences(ships, i, j);
        }
      }
    }
  }

  lemma {:induction false} SizeCountSplit(a: seq<Placement>, b: seq<Placement>, size: int)
    ensures SizeCount(a + b, size) == SizeCount(a, size) + SizeCount(b, size)
    decreases |b|
  {
    if b == [] {
      assert a + b == a;
    } else {
      SizeCountSplit(a, b[..|b| - 1], size);
      assert (a + b)[..|a + b| - 1] == a + b[..|b| - 1];
    }
  }

  lemma SizeCountWithout(s: seq<Placement>, j: nat, size: int)
    requires j < |s|
    ensures SizeCount(s, size) == SizeCount(s[..j] + s[j + 1..], size) + if s[j].size == size then 1 else 0
  {
    var front, v, back := s[..j], [s[j]], s[j + 1..];
    assert s == front + (v + back);
    SizeCountSplit(front, v + back, size);
    SizeCountSplit(v, back, size);
    SizeCountSplit(front, back, size);
    assert SizeCount(v, size) == if s[j].size == size then 1 else 0 by {
      assert v[..0] == [];
    }
  }

  lemma MultisetWithout<T>(s: seq<T>, j: nat)
    requires j < |s|
    ensures multiset(s[..j] + s[j + 1..]) == multiset(s) - multiset{s[j]}
  {
    assert s == s[..j] + [s[j]] + s[j + 1..];
  }

  lemma {:induction false} SizeCountIsUnordered(a: seq<Placement>, b: seq<Placement>, size: int)
    requires multiset(a) == multiset(b)
    ensures SizeCount(a, size) == SizeCount(b, size)
    decreases |a|
  {
    if a == [] {
      assert |multiset(b)| == 0;
    } else {
      var last := |a| - 1;
      assert a[last] in multiset(a);
      var j :| 0 <= j < |b| && b[j] == a[last];
      MultisetWithout(a, last);
      MultisetWithout(b, j);
      SizeCountIsUnordered(a[..last] + a[last + 1..], b[..j] + b[j + 1..], size);
      SizeCountWithout(a, last, size);
      SizeCountWithout(b, j, size);
    }
  }

  // Reordering the list changes neither acceptance nor the reason of a refusal.
  lemma JudgeIsUnordered(a: seq<Placement>, b: seq<Placement>)
    requires multiset(a) == multiset(b)
    ensures Judge(a) == Judge(b)
  {
    assert |a| == |multiset(a)| == |multiset(b)| == |b|;
    forall n ensures SizeCount(a, n) == SizeCount(b, n) {
      SizeCountIsUnordered(a, b, n);
    }
    NoTouchIsUnordered(a);
    NoTouchIsUnordered(b);
    forall i | 0 <= i < |a| ensures a[i] in b {
      assert a[i] in multiset(a);
    }
    forall i | 0 <= i < |b| ensures b[i] in a {
      assert b[i] in multiset(b);
    }
  }

  // Which rule a verdict names.
  lemma VerdictNamesTheRule(ships: seq<Placement>)
    ensures Judge(ships) == WrongTotal <==> |ships| != 10
    ensures Judge(ships) == WrongCounts ==> |ships| == 10 && exists size :: 1 <= size <= 4 && SizeCount(ships, size) != 5 - size
    ensures Judge(ships) == OutOfBounds ==> exists i, c :: 0 <= i < |ships| && Covers(ships[i], c) && !OnBoard(c)
    ensures Judge(ships) == Touching ==>
      exists i, j, a, b :: 0 <= i < j < |ships| && Covers(ships[i], a) && Covers(ships[j], b) && Near(a, b)
  {
    if Judge(ships) == WrongCounts {
      assert 5 - 4 == 1 && 5 - 3 == 2 && 5 - 2 == 3 && 5 - 1 == 4;
    } else if Judge(ships) == OutOfBounds {
      SizesAreLegal(ships);
      var i :| 0 <= i < |ships| && !InBounds(ships[i]);
      BoundsMeanFits(ships[i]);
    }
  }
}
