/** What one run of matchmaking does to the queue. */
module Drain {
  import opened Ids
  import opened Players
  import opened GameArchive
  import opened MatchState
  import opened ServerState
  import opened Matchmaking

  // Who can play among the members of a queue is the same in both rosters.
  lemma {:induction false} ReadyDependsOnMembers(queue: seq<Guid>, r: Roster, n: Roster)
    requires forall g :: g in queue ==> (CanPlay(r, g) <==> CanPlay(n, g))
    ensures Ready(queue, n) == Ready(queue, r)
    decreases |queue|
  {
    if queue != [] {
      ReadyDependsOnMembers(queue[1..], r, n);
    }
  }

  // One round: the first two who can play get a game, and the others wait as before.
  lemma OneRound(w: World, t: Ticket)
    requires Distinct(w.queue) && TryMatch(w.queue, w.roster).1.Some?
    ensures var (queue, pair) := TryMatch(w.queue, w.roster);
      var ready := Ready(w.queue, w.roster);
      && 2 <= |ready| && pair.value == (ready[0], ready[1]) && ready[0] != ready[1]
      && ready[0] in w.roster && ready[1] in w.roster
      && Distinct(queue) && |queue| + 2 == |w.queue|
      && multiset(w.queue) == multiset(queue) + multiset([ready[0], ready[1]])
      && Ready(queue, StartGame(w.(queue := queue), ready[0], ready[1], t).roster) == ready[2..]
  {
    var (queue, pair) := TryMatch(w.queue, w.roster);
    var ready := Ready(w.queue, w.roster);
    MatchIsOfTheFirstTwo(w.queue, w.roster);
    TryMatchKeepsDistinct(w.queue, w.roster);
    ReadyCanPlay(w.queue, w.roster, 0);
    ReadyCanPlay(w.queue, w.roster, 1);
    assert |multiset(w.queue)| == |multiset(queue)| + |multiset([ready[0], ready[1]])|;
    var after := StartGame(w.(queue := queue), ready[0], ready[1], t).roster;
    ReadyDependsOnMembers(queue, w.roster, after);
  }

  function IdsOf(tickets: seq<Ticket>): set<GameId> {
    if tickets == [] then {} else {tickets[0].id} + IdsOf(tickets[1..])
  }

  function GameOfPair(ready: seq<Guid>, t: Ticket, i: nat): Match
    requires i < |ready| / 2
  {
    NewMatch(ready[2 * i], ready[2 * i + 1], if t.firstStarts then ready[2 * i] else ready[2 * i + 1])
  }

  // The outcome of a run from w to n: a game for every two players who could play, in the order of
  // the queue, the last one of an odd number still waiting, at the front, and nobody else touched.
  ghost predicate Drained(w: World, tickets: seq<Ticket>, n: World) {
    var ready := Ready(w.queue, w.roster);
    var pairs := |ready| / 2;
    && pairs <= |tickets|
    && n.archive.games.Keys == w.archive.games.Keys + IdsOf(tickets[..pairs])
    && (forall id :: id in w.archive.games ==> n.archive.games[id] == w.archive.games[id])
    && (forall i :: 0 <= i < pairs ==>
          tickets[i].id in n.archive.games && n.archive.games[tickets[i].id] == GameOfPair(ready, tickets[i], i))
    && Ready(n.queue, n.roster) == ready[2 * pairs..]
    && ready[2 * pairs..] <= n.queue
    && multiset(n.queue) + multiset(ready[..2 * pairs]) == multiset(w.queue)
  }

  lemma NoRound(w: World, tickets: seq<Ticket>)
    requires TryMatch(w.queue, w.roster).1.None? && EnoughTickets(w, tickets)
    ensures Drained(w, tickets, CheckMatchmaking(w, tickets))
  {
    NoMatchKeepsTheQueue(w.queue, w.roster);
    var ready := Ready(w.queue, w.roster);
    MatchIsOfTheFirstTwo(w.queue, w.roster);
    assert |ready| / 2 == 0 && ready[0..] == ready && ready[..0] == [];
  }

  lemma PairsShift(ready: seq<Guid>)
    requires 2 <= |ready|
    ensures var rest, pairs := ready[2..], |ready| / 2;
      && |rest| / 2 == pairs - 1 && 2 * pairs <= |ready|
      && rest[2 * (pairs - 1)..] == ready[2 * pairs..]
      && multiset(ready[..2 * pairs]) == multiset([ready[0], ready[1]]) + multiset(rest[..2 * (pairs - 1)])
  {
    var rest, pairs := ready[2..], |ready| / 2;
    assert ready[..2 * pairs] == [ready[0], ready[1]] + rest[..2 * (pairs - 1)];
  }

  lemma PairShifts(ready: seq<Guid>, t: Ticket, i: nat)
    requires 1 <= i < |ready| / 2
    ensures GameOfPair(ready[2..], t, i - 1) == GameOfPair(ready, t, i)
  {
  }

  // The games of the pairs, the first from this round and the others from those that follow.
  lemma PairsHaveGames(ready: seq<Guid>, tickets: seq<Ticket>, next: Archive, n: Archive, i: nat)
    requires 2 <= |ready| && i < |ready| / 2 <= |tickets|
    requires tickets[0].id in next.games && next.games[tickets[0].id] == GameOfPair(ready, tickets[0], 0)
    requires forall id :: id in next.games ==> id in n.games && n.games[id] == next.games[id]
    requires forall j :: 0 <= j < |ready[2..]| / 2 ==>
      tickets[1..][j].id in n.games && n.games[tickets[1..][j].id] == GameOfPair(ready[2..], tickets[1..][j], j)
    ensures tickets[i].id in n.games && n.games[tickets[i].id] == GameOfPair(ready, tickets[i], i)
  {
    if i > 0 {
      PairShifts(ready, tickets[i], i);
      assert tickets[1..][i - 1] == tickets[i];
    }
  }

  // The ids of all tickets used are the first one's and those that follow.
  lemma IdsShift(tickets: seq<Ticket>, pairs: nat)
    requires 1 <= pairs <= |tickets|
    ensures IdsOf(tickets[..pairs]) == {tickets[0].id} + IdsOf(tickets[1..][..pairs - 1])
  {
    assert tickets[..pairs][1..] == tickets[1..][..pairs - 1];
  }

  // The queue after all rounds, told by the first one's and by those that follow.
  lemma QueueShifts(queue: multiset<Guid>, next: multiset<Guid>, last: multiset<Guid>, ready: seq<Guid>)
    requires 2 <= |ready| && queue == next + multiset([ready[0], ready[1]])
    requires var rest := ready[2..]; last + multiset(rest[..2 * (|rest| / 2)]) == next
    ensures last + multiset(ready[..2 * (|ready| / 2)]) == queue
  {
    PairsShift(ready);
  }

  lemma OneMoreRound(w: World, tickets: seq<Ticket>, next: World, n: World)
    requires tickets != [] && FreshTickets(w.archive, tickets)
    requires var ready := Ready(w.queue, w.roster);
      && 2 <= |ready| && Ready(next.queue, next.roster) == ready[2..]
      && next.archive.games ==
         w.archive.games[tickets[0].id := GameOfPair(ready, tickets[0], 0)]
      && multiset(w.queue) == multiset(next.queue) + multiset([ready[0], ready[1]])
    requires Drained(next, tickets[1..], n)
    ensures Drained(w, tickets, n)
  {
    var ready := Ready(w.queue, w.roster);
    var pairs := |ready| / 2;
    PairsShift(ready);
    QueueShifts(multiset(w.queue), multiset(next.queue), multiset(n.queue), ready);
    forall i | 0 <= i < pairs
      ensures tickets[i].id in n.archive.games && n.archive.games[tickets[i].id] == GameOfPair(ready, tickets[i], i)
    {
      PairsHaveGames(ready, tickets, next.archive, n.archive, i);
    }
    IdsShift(tickets, pairs);
  }

  lemma {:induction false} CheckMatchmakingDrains(w: World, tickets: seq<Ticket>)
    requires Distinct(w.queue) && FreshTickets(w.archive, tickets) && EnoughTickets(w, tickets)
    ensures Drained(w, tickets, CheckMatchmaking(w, tickets))
    decreases |tickets|
  {
    var (queue, pair) := TryMatch(w.queue, w.roster);
    if pair.None? {
      NoRound(w, tickets);
    } else {
      OneRound(w, tickets[0]);
      var next := StartGame(w.(queue := queue), pair.value.0, pair.value.1, tickets[0]);
      assert FreshTickets(next.archive, tickets[1..]) by {
        assert next.archive.games.Keys == w.archive.games.Keys + {tickets[0].id};
        assert forall i :: 0 <= i < |tickets[1..]| ==> tickets[1..][i] == tickets[i + 1];
      }
      CheckMatchmakingDrains(next, tickets[1..]);
      OneMoreRound(w, tickets, next, CheckMatchmaking(next, tickets[1..]));
    }
  }
}
