/** The queue of players who want an opponent. */
module Matchmaking {
  import opened Ids
  import opened Options
  import opened Players

  predicate CanPlay(r: Roster, g: Guid) {
    g in r && r[g].status == Online
  }

  // Takes the first players who can play, at most k of them, out of the queue.
  function TakeOnline(queue: seq<Guid>, r: Roster, k: nat): (seq<Guid>, seq<Guid>) {
    if queue == [] || k == 0 then ([], queue)
    else if CanPlay(r, queue[0]) then
      var (taken, rest) := TakeOnline(queue[1..], r, k - 1);
      ([queue[0]] + taken, rest)
    else
      var (taken, rest) := TakeOnline(queue[1..], r, k);
      (taken, [queue[0]] + rest)
  }

  lemma {:induction false} TakenCanPlay(queue: seq<Guid>, r: Roster, k: nat)
    ensures var (taken, rest) := TakeOnline(queue, r, k);
      && |taken| + |rest| == |queue| && |taken| <= k
      && forall g :: g in taken ==> CanPlay(r, g)
    decreases |queue|
  {
    if queue != [] && k != 0 {
      TakenCanPlay(queue[1..], r, if CanPlay(r, queue[0]) then k - 1 else k);
    }
  }

  // What the walk over the queue does at one place, seen from the beginning of the queue.
  lemma TakeStep(available: seq<Guid>, queue: seq<Guid>, it: nat, r: Roster, k: nat)
    requires it < |queue| && 0 < k
    ensures var p, (taken, rest) := queue[it], TakeOnline(queue[it..], r, k);
      var (taken', rest') := TakeOnline(queue[it + 1..], r, if CanPlay(r, p) then k - 1 else k);
      if CanPlay(r, p) then available + taken == (available + [p]) + taken' && rest == rest'
      else taken == taken' && queue[..it] + rest == queue[..it + 1] + rest'
  {
    var p := queue[it];
    var (taken, rest) := TakeOnline(queue[it + 1..], r, if CanPlay(r, p) then k - 1 else k);
    assert queue[it..][1..] == queue[it + 1..];
    if CanPlay(r, p) {
      assert available + ([p] + taken) == (available + [p]) + taken;
    } else {
      assert queue[..it] + ([p] + rest) == queue[..it + 1] + rest;
    }
  }

  lemma ErasedAt(queue: seq<Guid>, it: nat)
    requires it < |queue|
    ensures var erased := queue[..it] + queue[it + 1..]; erased[..it] == queue[..it] && erased[it..] == queue[it + 1..]
  {
  }

  // A lone player who can play goes back to the front of the queue.
  function TryMatch(queue: seq<Guid>, r: Roster): (result: (seq<Guid>, Option<(Guid, Guid)>))
    ensures result.1.Some? ==>
      CanPlay(r, result.1.value.0) && CanPlay(r, result.1.value.1) && |result.0| + 2 == |queue|
  {
    TakenCanPlay(queue, r, 2);
    var (taken, rest) := TakeOnline(queue, r, 2);
    if |taken| >= 2 then (rest, Some((taken[0], taken[1]))) else (taken + rest, None)
  }

  function Add(queue: seq<Guid>, g: Guid): seq<Guid> {
    if g in queue then queue else queue + [g]
  }

  function Remove(queue: seq<Guid>, g: Guid): seq<Guid> {
    if queue == [] then []
    else (if queue[0] == g then [] else [queue[0]]) + Remove(queue[1..], g)
  }

  // What the removal does at one place.
  lemma RemoveStep(kept: seq<Guid>, queue: seq<Guid>, i: nat, g: Guid)
    requires i < |queue|
    ensures kept + Remove(queue[i..], g) == (if queue[i] == g then kept else kept + [queue[i]]) + Remove(queue[i + 1..], g)
  {
    var first, rest := if queue[i] == g then [] else [queue[i]], Remove(queue[i + 1..], g);
    assert queue[i..][1..] == queue[i + 1..];
    assert Remove(queue[i..], g) == first + rest;
    assert kept + (first + rest) == (kept + first) + rest;
    assert kept + [] == kept;
  }

  class Matchmaker {
    var queue: seq<Guid>

    constructor ()
      ensures queue == []
    {
      queue := [];
    }

    method AddPlayer(guid: Guid)
      modifies this
      ensures queue == Add(old(queue), guid)
    {
      for i := 0 to |queue|
        invariant queue == old(queue) && guid !in queue[..i]
      {
        if queue[i] == guid {
          return;
        }
      }
      queue := queue + [guid];
    }

    method RemovePlayer(guid: Guid)
      modifies this
      ensures queue == Remove(old(queue), guid)
    {
      var kept: seq<Guid> := [];
      var i := 0;
      while i < |queue|
        invariant 0 <= i <= |queue| && queue == old(queue)
        invariant kept + Remove(queue[i..], guid) == Remove(queue, guid)
      {
        RemoveStep(kept, queue, i, guid);
        if queue[i] != guid {
          kept := kept + [queue[i]];
        }
        i := i + 1;
      }
      queue := kept;
    }

    // One walk over the queue that erases those it takes; the source stops at two.
    method TakeFirst(r: Roster, count: nat) returns (available: seq<Guid>)
      modifies this
      ensures (available, queue) == TakeOnline(old(queue), r, count)
    {
      available := [];
      var it := 0;
      ghost var goal := TakeOnline(queue, r, count);
      while it < |queue| && |available| < count
        invariant 0 <= it <= |queue| && |available| <= count
        invariant available + TakeOnline(queue[it..], r, count - |available|).0 == goal.0
        invariant queue[..it] + TakeOnline(queue[it..], r, count - |available|).1 == goal.1
        decreases |queue| - it
      {
        var p := queue[it];
        TakeStep(available, queue, it, r, count - |available|);
        if CanPlay(r, p) {
          ErasedAt(queue, it);
          available := available + [p];
          queue := queue[..it] + queue[it + 1..];
        } else {
          it := it + 1;
        }
      }
      assert queue[..it] + queue[it..] == queue && available + [] == available;
    }

    method TryMatchPlayers(r: Roster) returns (pair: Option<(Guid, Guid)>)
      modifies this
      ensures (queue, pair) == TryMatch(old(queue), r)
    {
      var available := TakeFirst(r, 2);
      if |available| >= 2 {
        return Some((available[0], available[1]));
      }
      ghost var rest := queue;
      for i := 0 to |available|
        invariant queue == available[..i] + rest
      {
        queue := [available[i]] + queue;
      }
      assert available[..|available|] == available;
      return None;
    }
  }

  ghost predicate Distinct(queue: seq<Guid>) {
    forall i, j :: 0 <= i < j < |queue| ==> queue[i] != queue[j]
  }

  // The players in the queue who can play, in order.
  function Ready(queue: seq<Guid>, r: Roster): seq<Guid> {
    if queue == [] then []
    else (if CanPlay(r, queue[0]) then [queue[0]] else []) + Ready(queue[1..], r)
  }

  function Min(a: nat, b: nat): nat {
    if a < b then a else b
  }

  lemma {:induction false} TakenAreTheFirst(queue: seq<Guid>, r: Roster, k: nat)
    ensures TakeOnline(queue, r, k).0 == Ready(queue, r)[..Min(k, |Ready(queue, r)|)]
    decreases |queue|
  {
    if queue != [] && k != 0 {
      var more := Ready(queue[1..], r);
      if CanPlay(r, queue[0]) {
        TakenAreTheFirst(queue[1..], r, k - 1);
        assert ([queue[0]] + more)[..1 + Min(k - 1, |more|)] == [queue[0]] + more[..Min(k - 1, |more|)];
      } else {
        TakenAreTheFirst(queue[1..], r, k);
        assert [] + more == more;
      }
    }
  }

  lemma {:induction false} RestIsTheOthers(queue: seq<Guid>, r: Roster, k: nat)
    ensures Ready(TakeOnline(queue, r, k).1, r) == Ready(queue, r)[Min(k, |Ready(queue, r)|)..]
    decreases |queue|
  {
    if queue != [] && k != 0 {
      var more := Ready(queue[1..], r);
      if CanPlay(r, queue[0]) {
        RestIsTheOthers(queue[1..], r, k - 1);
        assert ([queue[0]] + more)[1 + Min(k - 1, |more|)..] == more[Min(k - 1, |more|)..];
      } else {
        RestIsTheOthers(queue[1..], r, k);
        var rest := TakeOnline(queue[1..], r, k).1;
        assert ([queue[0]] + rest)[1..] == rest;
        assert [] + more == more && [] + Ready(rest, r) == Ready(rest, r);
      }
    }
  }

  lemma {:induction false} NobodyIsLost(queue: seq<Guid>, r: Roster, k: nat)
    ensures multiset(TakeOnline(queue, r, k).0) + multiset(TakeOnline(queue, r, k).1) == multiset(queue)
    decreases |queue|
  {
    if queue != [] && k != 0 {
      assert queue == [queue[0]] + queue[1..];
      NobodyIsLost(queue[1..], r, if CanPlay(r, queue[0]) then k - 1 else k);
    }
  }

  lemma FirstTwo(taken: seq<Guid>, ready: seq<Guid>)
    requires taken == ready[..Min(2, |ready|)]
    ensures if 2 <= |ready| then taken == [ready[0], ready[1]] else taken == ready
  {
  }

  // A match is of the first two players who can play.
  lemma MatchIsOfTheFirstTwo(queue: seq<Guid>, r: Roster)
    ensures var ((after, pair), ready) := (TryMatch(queue, r), Ready(queue, r));
      && (pair.Some? <==> 2 <= |ready|)
      && (pair.Some? ==> pair.value == (ready[0], ready[1]) && Ready(after, r) == ready[2..]
                         && multiset(queue) == multiset(after) + multiset([ready[0], ready[1]]))
  {
    TakenAreTheFirst(queue, r, 2);
    RestIsTheOthers(queue, r, 2);
    NobodyIsLost(queue, r, 2);
    FirstTwo(TakeOnline(queue, r, 2).0, Ready(queue, r));
  }

  // Without a match the queue keeps its members, and the only one who can play, if there is one,
  // has moved to the front.
  lemma NoMatchKeepsTheQueue(queue: seq<Guid>, r: Roster)
    requires TryMatch(queue, r).1.None?
    ensures var (after, ready) := (TryMatch(queue, r).0, Ready(queue, r));
      Ready(after, r) == ready && |ready| <= 1 && ready <= after && multiset(after) == multiset(queue)
  {
    TakenAreTheFirst(queue, r, 2);
    RestIsTheOthers(queue, r, 2);
    NobodyIsLost(queue, r, 2);
    var (taken, rest) := TakeOnline(queue, r, 2);
    assert taken == Ready(queue, r);
    ReadyOfFront(taken, rest, queue, r);
  }

  lemma ReadyOfFront(taken: seq<Guid>, rest: seq<Guid>, queue: seq<Guid>, r: Roster)
    requires |taken| <= 1 && taken == Ready(queue, r) && Ready(rest, r) == []
    ensures Ready(taken + rest, r) == taken
  {
    if taken == [] {
      assert taken + rest == rest;
    } else {
      ReadyCanPlay(queue, r, 0);
      assert (taken + rest)[1..] == rest;
    }
  }

  lemma {:induction false} ReadyCanPlay(queue: seq<Guid>, r: Roster, i: nat)
    requires i < |Ready(queue, r)|
    ensures CanPlay(r, Ready(queue, r)[i]) && Ready(queue, r)[i] in queue
    decreases |queue|
  {
    if !(CanPlay(r, queue[0]) && i == 0) {
      ReadyCanPlay(queue[1..], r, if CanPlay(r, queue[0]) then i - 1 else i);
    }
  }

  // Distinctness is a matter of members and their number, so taking and moving keeps it.
  lemma {:induction false} DistinctByCount(queue: seq<Guid>)
    ensures Distinct(queue) <==> forall g :: multiset(queue)[g] <= 1
    decreases |queue|
  {
    if queue != [] {
      var head, tail := queue[0], queue[1..];
      assert queue == [head] + tail;
      DistinctByCount(tail);
      assert forall g :: multiset(queue)[g] == multiset(tail)[g] + if g == head then 1 else 0;
      assert Distinct(queue) <==> Distinct(tail) && head !in tail by {
        if Distinct(tail) && head !in tail {
          assert forall j :: 0 < j < |queue| ==> queue[j] == tail[j - 1];
        }
        assert Distinct(queue) ==> forall j :: 0 <= j < |tail| ==> tail[j] == queue[j + 1];
      }
      assert head in tail <==> multiset(tail)[head] >= 1;
    }
  }

  lemma TryMatchKeepsDistinct(queue: seq<Guid>, r: Roster)
    requires Distinct(queue)
    ensures var (after, pair) := TryMatch(queue, r);
      && Distinct(after)
      && (forall g :: g in after ==> g in queue)
      && (pair.Some? ==> pair.value.0 != pair.value.1 && pair.value.0 in queue && pair.value.1 in queue
                         && pair.value.0 !in after && pair.value.1 !in after)
  {
    var (after, pair) := TryMatch(queue, r);
    DistinctByCount(queue);
    if pair.Some? {
      MatchIsOfTheFirstTwo(queue, r);
      PairLeaves(multiset(queue), multiset(after), pair.value.0, pair.value.1);
    } else {
      NoMatchKeepsTheQueue(queue, r);
    }
    DistinctByCount(after);
    assert forall g :: g in after <==> g in multiset(after);
    assert forall g :: g in queue <==> g in multiset(queue);
  }

  lemma PairLeaves(before: multiset<Guid>, after: multiset<Guid>, a: Guid, b: Guid)
    requires before == after + multiset([a, b]) && forall g :: before[g] <= 1
    ensures a != b && a in before && b in before && a !in after && b !in after
    ensures forall g :: after[g] <= before[g]
  {
    assert multiset([a, b]) == multiset{a, b};
    assert before[a] == after[a] + multiset{a, b}[a] && before[b] == after[b] + multiset{a, b}[b];
    assert forall g :: before[g] == after[g] + multiset{a, b}[g];
  }

  lemma {:induction false} RemoveMembers(queue: seq<Guid>, g: Guid)
    ensures forall p :: p in Remove(queue, g) <==> p in queue && p != g
    ensures Distinct(queue) ==> Distinct(Remove(queue, g))
    decreases |queue|
  {
    if queue != [] {
      RemoveMembers(queue[1..], g);
      assert queue == [queue[0]] + queue[1..];
      if Distinct(queue) {
        assert Distinct(queue[1..]);
        assert queue[0] !in queue[1..];
      }
    }
  }

  // Whoever is not waiting is the last to wait afterwards; whoever is keeps their place.
  lemma AddJoins(queue: seq<Guid>, g: Guid)
    ensures g in Add(queue, g) && Remove(Add(queue, g), g) == Remove(queue, g)
    ensures g in queue ==> Add(queue, g) == queue
    ensures g !in queue ==> |Add(queue, g)| == |queue| + 1 && Add(queue, g)[|queue|] == g
  {
    if g !in queue {
      RemoveInParts(queue, [g], g);
      assert Remove(queue, g) + [] == Remove(queue, g);
    }
  }

  lemma {:induction false} RemoveInParts(a: seq<Guid>, b: seq<Guid>, g: Guid)
    ensures Remove(a + b, g) == Remove(a, g) + Remove(b, g)
    decreases |a|
  {
    if a == [] {
      assert a + b == b && Remove(a, g) + Remove(b, g) == Remove(b, g);
    } else {
      assert (a + b)[1..] == a[1..] + b;
      RemoveInParts(a[1..], b, g);
    }
  }

  lemma {:induction false} RemoveOfAbsent(queue: seq<Guid>, g: Guid)
    requires g !in queue
    ensures Remove(queue, g) == queue
    decreases |queue|
  {
    if queue != [] {
      RemoveOfAbsent(queue[1..], g);
      assert [queue[0]] + queue[1..] == queue;
    }
  }

  lemma RemoveBetween(a: seq<Guid>, g: Guid, b: seq<Guid>)
    requires g !in a && g !in b
    ensures Remove(a + ([g] + b), g) == a + b
  {
    RemoveInParts(a, [g] + b, g);
    RemoveOfAbsent(a, g);
    RemoveOfAbsent(b, g);
    assert ([g] + b)[1..] == b;
    assert Remove([g] + b, g) == b;
  }

  lemma SplitAt(queue: seq<Guid>, i: nat)
    requires i < |queue|
    ensures queue[..i] + ([queue[i]] + queue[i + 1..]) == queue
  {
  }

  lemma AbsentElsewhere(queue: seq<Guid>, i: nat)
    requires Distinct(queue) && i < |queue|
    ensures queue[i] !in queue[..i] && queue[i] !in queue[i + 1..]
  {
  }

  // Of a queue without repetition exactly the one place is taken out.
  lemma RemoveTakesOut(queue: seq<Guid>, i: nat)
    requires Distinct(queue) && i < |queue|
    ensures Remove(queue, queue[i]) == queue[..i] + queue[i + 1..]
  {
    AbsentElsewhere(queue, i);
    RemoveBetween(queue[..i], queue[i], queue[i + 1..]);
    SplitAt(queue, i);
  }
}
