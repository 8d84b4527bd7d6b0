/** The invite store. Expired invites are skipped when read and thrown away only now and then. */
module Invites {
  import opened Ids
  import opened Options
  import Geometry

  datatype Invite = Invite(id: InviteId, from: Guid, to: Guid, createdAt: int)
  type Store = map<InviteId, Invite>

  // Times are in nanoseconds of a steady clock.
  const INVITE_TIMEOUT := 30 * 1_000_000_000

  predicate Expired(i: Invite, now: int) {
    now - i.createdAt > INVITE_TIMEOUT
  }

  predicate Active(s: Store, id: InviteId, now: int) {
    id in s && !Expired(s[id], now)
  }

  ghost predicate HasActive(s: Store, from: Guid, to: Guid, now: int) {
    exists id :: Active(s, id, now) && s[id].from == from && s[id].to == to
  }

  // None: the pair already has an active invite. The new id is given.
  ghost function Create(s: Store, from: Guid, to: Guid, id: InviteId, now: int): (Store, Option<InviteId>) {
    if HasActive(s, from, to, now) then (s, None) else (s[id := Invite(id, from, to, now)], Some(id))
  }

  function Get(s: Store, id: InviteId, now: int): Option<Invite> {
    if Active(s, id, now) then Some(s[id]) else None
  }

  function Accept(s: Store, id: InviteId, now: int): (Store, Option<(Guid, Guid)>) {
    (s - {id}, if Active(s, id, now) then Some((s[id].from, s[id].to)) else None)
  }

  function Decline(s: Store, id: InviteId): (Store, bool) {
    (s - {id}, id in s)
  }

  function Cancel(s: Store, id: InviteId, from: Guid): (Store, bool) {
    if id in s && s[id].from == from then (s - {id}, true) else (s, false)
  }

  function Addressed(s: Store, to: Guid, now: int): set<Invite> {
    set id | id in s && s[id].to == to && !Expired(s[id], now) :: s[id]
  }

  function SentBy(s: Store, from: Guid, now: int): set<Invite> {
    set id | id in s && s[id].from == from && !Expired(s[id], now) :: s[id]
  }

  function RemoveFor(s: Store, g: Guid): Store {
    map id | id in s && s[id].from != g && s[id].to != g :: s[id]
  }

  function Cleanup(s: Store, now: int): Store {
    map id | id in s && !Expired(s[id], now) :: s[id]
  }

  class InviteManager {
    var invites: Store

    constructor ()
      ensures invites == map[]
    {
      invites := map[];
    }

    method HasActiveInvite(from: Guid, to: Guid, now: int) returns (found: bool)
      ensures found <==> HasActive(invites, from, to, now)
    {
      var rest := invites.Keys;
      while rest != {}
        invariant rest <= invites.Keys
        invariant forall id :: id in invites && id !in rest ==>
          !(invites[id].from == from && invites[id].to == to && !Expired(invites[id], now))
      {
        var id :| id in rest;
        var invite := invites[id];
        if invite.from == from && invite.to == to && !Expired(invite, now) {
          assert Active(invites, id, now);
          return true;
        }
        rest := rest - {id};
      }
      return false;
    }

    // The source walks the store itself here; the walk is that of HasActiveInvite.
    method CreateInvite(from: Guid, to: Guid, newId: InviteId, now: int) returns (r: Option<InviteId>)
      modifies this
      ensures (invites, r) == Create(old(invites), from, to, newId, now)
    {
      var refused := HasActiveInvite(from, to, now);
      if refused {
        return None;
      }
      invites := invites[newId := Invite(newId, from, to, now)];
      return Some(newId);
    }

    method GetInvite(id: InviteId, now: int) returns (r: Option<Invite>)
      ensures r == Get(invites, id, now)
    {
      if id in invites && !Expired(invites[id], now) {
        return Some(invites[id]);
      }
      return None;
    }

    method AcceptInvite(id: InviteId, now: int) returns (r: Option<(Guid, Guid)>)
      modifies this
      ensures (invites, r) == Accept(old(invites), id, now)
    {
      if id !in invites {
        assert invites - {id} == invites;
        return None;
      }
      if Expired(invites[id], now) {
        invites := invites - {id};
        return None;
      }
      r := Some((invites[id].from, invites[id].to));
      invites := invites - {id};
    }

    method DeclineInvite(id: InviteId) returns (r: bool)
      modifies this
      ensures (invites, r) == Decline(old(invites), id)
    {
      if id in invites {
        invites := invites - {id};
        return true;
      }
      assert invites - {id} == invites;
      return false;
    }

    method CancelInvite(id: InviteId, from: Guid) returns (r: bool)
      modifies this
      ensures (invites, r) == Cancel(old(invites), id, from)
    {
      if id in invites && invites[id].from == from {
        invites := invites - {id};
        return true;
      }
      return false;
    }

    method GetInvitesForPlayer(to: Guid, now: int) returns (r: set<Invite>)
      ensures r == Addressed(invites, to, now)
    {
      r := {};
      var rest := invites.Keys;
      while rest != {}
        invariant rest <= invites.Keys
        invariant r == set id | id in invites.Keys - rest && invites[id].to == to && !Expired(invites[id], now) :: invites[id]
      {
        var id :| id in rest;
        if invites[id].to == to && !Expired(invites[id], now) {
          r := r + {invites[id]};
        }
        rest := rest - {id};
      }
    }

    method GetInvitesFromPlayer(from: Guid, now: int) returns (r: set<Invite>)
      ensures r == SentBy(invites, from, now)
    {
      r := {};
      var rest := invites.Keys;
      while rest != {}
        invariant rest <= invites.Keys
        invariant r == set id | id in invites.Keys - rest && invites[id].from == from && !Expired(invites[id], now) :: invites[id]
      {
        var id :| id in rest;
        if invites[id].from == from && !Expired(invites[id], now) {
          r := r + {invites[id]};
        }
        rest := rest - {id};
      }
    }

    method RemoveInvitesForPlayer(g: Guid)
      modifies this
      ensures invites == RemoveFor(old(invites), g)
    {
      ghost var before := invites;
      var rest := invites.Keys;
      while rest != {}
        invariant rest <= invites.Keys <= before.Keys
        invariant forall id :: id in invites ==> invites[id] == before[id]
        invariant forall id :: id in before && id !in rest ==> (id in invites <==> before[id].from != g && before[id].to != g)
      {
        var id :| id in rest;
        if invites[id].from == g || invites[id].to == g {
          invites := invites - {id};
        }
        rest := rest - {id};
      }
    }

    method CleanupExpired(now: int)
      modifies this
      ensures invites == Cleanup(old(invites), now)
    {
      ghost var before := invites;
      var rest := invites.Keys;
      while rest != {}
        invariant rest <= invites.Keys <= before.Keys
        invariant forall id :: id in invites ==> invites[id] == before[id]
        invariant forall id :: id in before && id !in rest ==> (id in invites <==> !Expired(before[id], now))
      {
        var id :| id in rest;
        if Expired(invites[id], now) {
          invites := invites - {id};
        }
        rest := rest - {id};
      }
    }
  }

  // ----- Runs

  datatype Op =
    | CreateOp(from: Guid, to: Guid, id: InviteId)
    | GetOp(id: InviteId)
    | AcceptOp(id: InviteId)
    | DeclineOp(id: InviteId)
    | CancelOp(id: InviteId, from: Guid)
    | HasActiveOp(from: Guid, to: Guid)
    | AddressedOp(to: Guid)
    | SentByOp(from: Guid)
    | RemoveOp(g: Guid)
    | CleanupOp

  datatype Timed = Timed(at: int, op: Op)

  // The answers that are compared; declining and cancelling ignore expiry, so theirs are not.
  datatype Answer =
    | Created(id: Option<InviteId>)
    | Found(invite: Option<Invite>)
    | AcceptedBy(pair: Option<(Guid, Guid)>)
    | IsActive(b: bool)
    | Listed(invites: set<Invite>)
    | NotCompared

  ghost function Apply(s: Store, t: Timed): (Store, Answer) {
    match t.op
    case CreateOp(from, to, id) => var (s', r) := Create(s, from, to, id, t.at); (s', Created(r))
    case GetOp(id) => (s, Found(Get(s, id, t.at)))
    case AcceptOp(id) => var (s', r) := Accept(s, id, t.at); (s', AcceptedBy(r))
    case DeclineOp(id) => (Decline(s, id).0, NotCompared)
    case CancelOp(id, from) => (Cancel(s, id, from).0, NotCompared)
    case HasActiveOp(from, to) => (s, IsActive(HasActive(s, from, to, t.at)))
    case AddressedOp(to) => (s, Listed(Addressed(s, to, t.at)))
    case SentByOp(from) => (s, Listed(SentBy(s, from, t.at)))
    case RemoveOp(g) => (RemoveFor(s, g), NotCompared)
    case CleanupOp => (Cleanup(s, t.at), NotCompared)
  }

  ghost function StoreAfter(s: Store, run: seq<Timed>): Store
    decreases |run|
  {
    if run == [] then s else StoreAfter(Apply(s, run[0]).0, run[1..])
  }

  // The answers of a run; a cleanup has none.
  ghost function Answers(s: Store, run: seq<Timed>): seq<Answer>
    decreases |run|
  {
    if run == [] then []
    else
      var (s', a) := Apply(s, run[0]);
      (if run[0].op.CleanupOp? then [] else [a]) + Answers(s', run[1..])
  }

  function WithoutCleanups(run: seq<Timed>): seq<Timed> {
    if run == [] then []
    else (if run[0].op.CleanupOp? then [] else [run[0]]) + WithoutCleanups(run[1..])
  }

  // The clock does not go back, and the run starts at the given time or later.
  ghost predicate Steady(run: seq<Timed>, start: int) {
    run == [] || (start <= run[0].at && Steady(run[1..], run[0].at))
  }

  // ----- Cleaning up cannot be noticed

  // The two stores hold the same unexpired invites.
  ghost predicate SameActive(a: Store, b: Store, now: int) {
    forall id :: (Active(a, id, now) <==> Active(b, id, now)) && (Active(a, id, now) ==> a[id] == b[id])
  }

  lemma SameActiveLater(a: Store, b: Store, now: int, later: int)
    requires SameActive(a, b, now) && now <= later
    ensures SameActive(a, b, later)
  {
    forall id ensures (Active(a, id, later) <==> Active(b, id, later)) && (Active(a, id, later) ==> a[id] == b[id]) {
      assert (Active(a, id, later) ==> Active(a, id, now)) && (Active(b, id, later) ==> Active(b, id, now));
    }
  }

  lemma SameLists(a: Store, b: Store, g: Guid, now: int)
    requires SameActive(a, b, now)
    ensures Addressed(a, g, now) == Addressed(b, g, now) && SentBy(a, g, now) == SentBy(b, g, now)
  {
    assert forall id :: id in a && !Expired(a[id], now) ==> Active(a, id, now);
    assert forall id :: id in b && !Expired(b[id], now) ==> Active(b, id, now);
  }

  lemma SameHasActive(a: Store, b: Store, from: Guid, to: Guid, now: int)
    requires SameActive(a, b, now)
    ensures HasActive(a, from, to, now) == HasActive(b, from, to, now)
  {
    if id :| Active(a, id, now) && a[id].from == from && a[id].to == to {
      assert Active(b, id, now);
    }
    if id :| Active(b, id, now) && b[id].from == from && b[id].to == to {
      assert Active(a, id, now);
    }
  }

  // An operation answers alike on both stores and keeps them alike.
  lemma ApplyAgrees(a: Store, b: Store, t: Timed)
    requires SameActive(a, b, t.at)
    ensures Apply(a, t).1 == Apply(b, t).1 && SameActive(Apply(a, t).0, Apply(b, t).0, t.at)
  {
    match t.op
    case CreateOp(from, to, id) => SameHasActive(a, b, from, to, t.at);
    case HasActiveOp(from, to) => SameHasActive(a, b, from, to, t.at);
    case AddressedOp(to) => SameLists(a, b, to, t.at);
    case SentByOp(from) => SameLists(a, b, from, t.at);
    case GetOp(id) => assert Active(a, id, t.at) <==> Active(b, id, t.at);
    case AcceptOp(id) =>
      assert Active(a, id, t.at) <==> Active(b, id, t.at);
      assert forall i :: Active(a - {id}, i, t.at) <==> i != id && Active(a, i, t.at);
      assert forall i :: Active(b - {id}, i, t.at) <==> i != id && Active(b, i, t.at);
    case DeclineOp(id) =>
      assert forall i :: Active(a - {id}, i, t.at) <==> i != id && Active(a, i, t.at);
      assert forall i :: Active(b - {id}, i, t.at) <==> i != id && Active(b, i, t.at);
    case CancelOp(id, from) =>
      assert forall i :: Active(a - {id}, i, t.at) <==> i != id && Active(a, i, t.at);
      assert forall i :: Active(b - {id}, i, t.at) <==> i != id && Active(b, i, t.at);
      assert Active(a, id, t.at) <==> Active(b, id, t.at);
    case RemoveOp(g) =>
    case CleanupOp =>
  }

  // Under a steady clock, putting cleanups anywhere into a run changes none of the other answers:
  // lazy and eager expiry agree.
  lemma {:induction false} CleanupsAreInvisible(a: Store, b: Store, run: seq<Timed>, now: int)
    requires SameActive(a, b, now) && Steady(run, now)
    ensures Answers(a, run) == Answers(b, WithoutCleanups(run))
    decreases |run|
  {
    if run != [] {
      var t := run[0];
      SameActiveLater(a, b, now, t.at);
      if t.op.CleanupOp? {
        assert SameActive(Apply(a, t).0, b, t.at);
        CleanupsAreInvisible(Apply(a, t).0, b, run[1..], t.at);
        assert [] + Answers(Apply(a, t).0, run[1..]) == Answers(Apply(a, t).0, run[1..]);
        assert WithoutCleanups(run) == WithoutCleanups(run[1..]);
      } else {
        ApplyAgrees(a, b, t);
        CleanupsAreInvisible(Apply(a, t).0, Apply(b, t).0, run[1..], t.at);
        assert WithoutCleanups(run)[1..] == WithoutCleanups(run[1..]);
      }
    }
  }

  // Declining does see the difference, and exactly on an expired invite that is still stored.
  lemma DeclineSeesExpired(s: Store, id: InviteId, now: int)
    ensures Decline(s, id).1 == Decline(Cleanup(s, now), id).1 <==> !(id in s && Expired(s[id], now))
  {
  }

  // So does cancelling, exactly on an expired invite that its sender cancels.
  lemma CancelSeesExpired(s: Store, id: InviteId, from: Guid, now: int)
    ensures Cancel(s, id, from).1 == Cancel(Cleanup(s, now), id, from).1 <==>
            !(id in s && s[id].from == from && Expired(s[id], now))
  {
  }

  // And so does the number of stored invites, exactly if one of them is expired.
  lemma CountSeesExpired(s: Store, now: int)
    ensures |s| == |Cleanup(s, now)| <==> forall id :: id in s ==> !Expired(s[id], now)
  {
    var n := Cleanup(s, now);
    assert n.Keys <= s.Keys;
    if id :| id in s && Expired(s[id], now) {
      assert n.Keys <= s.Keys - {id};
      Geometry.SubsetCount(n.Keys, s.Keys - {id});
    } else {
      assert n == s;
    }
  }

  // An expired invite that is still stored is declined, cancelled and counted; after a cleanup it is not.
  lemma ExpiredIsSeen()
    ensures var s, now := map["i" := Invite("i", "a", "b", 0)], INVITE_TIMEOUT + 1;
      && Decline(s, "i").1 && !Decline(Cleanup(s, now), "i").1
      && Cancel(s, "i", "a").1 && !Cancel(Cleanup(s, now), "i", "a").1
      && |s| == 1 && |Cleanup(s, now)| == 0
  {
    assert Cleanup(map["i" := Invite("i", "a", "b", 0)], INVITE_TIMEOUT + 1) == map[];
  }

  // ----- One active invite a pair, one acceptance an id

  ghost predicate OnePerPair(s: Store, now: int) {
    forall i, j :: Active(s, i, now) && Active(s, j, now) && s[i].from == s[j].from && s[i].to == s[j].to ==> i == j
  }

  lemma ApplyKeepsOnePerPair(s: Store, t: Timed)
    requires OnePerPair(s, t.at)
    ensures OnePerPair(Apply(s, t).0, t.at)
  {
    var n := Apply(s, t).0;
    forall i, j | Active(n, i, t.at) && Active(n, j, t.at) && n[i].from == n[j].from && n[i].to == n[j].to
      ensures i == j
    {
      if t.op.CreateOp? {
        assert i != t.op.id ==> Active(s, i, t.at) && n[i] == s[i];
        assert j != t.op.id ==> Active(s, j, t.at) && n[j] == s[j];
      } else {
        assert Active(s, i, t.at) && Active(s, j, t.at) && n[i] == s[i] && n[j] == s[j];
      }
    }
  }

  // At any time of any run under a steady clock, an ordered pair has at most one active invite.
  lemma {:induction false} OneActivePerPair(s: Store, run: seq<Timed>, start: int, now: int)
    requires OnePerPair(s, start) && Steady(run, start)
    requires if run == [] then start <= now else run[|run| - 1].at <= now
    ensures OnePerPair(StoreAfter(s, run), now)
    decreases |run|
  {
    if run == [] {
      assert forall i :: Active(s, i, now) ==> Active(s, i, start);
    } else {
      var t := run[0];
      assert forall i :: Active(s, i, t.at) ==> Active(s, i, start);
      ApplyKeepsOnePerPair(s, t);
      OneActivePerPair(Apply(s, t).0, run[1..], t.at, now);
    }
  }

  lemma {:induction false} NeverAcceptedAgain(s: Store, run: seq<Timed>, id: InviteId, k: nat)
    requires id !in s && k < |run| && run[k].op == AcceptOp(id)
    requires forall i :: 0 <= i < |run| && run[i].op.CreateOp? ==> run[i].op.id != id
    ensures Apply(StoreAfter(s, run[..k]), run[k]).1 == AcceptedBy(None)
    decreases |run|
  {
    if k > 0 {
      assert run[..k][1..] == run[1..][..k - 1];
      assert id !in Apply(s, run[0]).0;
      NeverAcceptedAgain(Apply(s, run[0]).0, run[1..], id, k - 1);
    }
  }

  lemma AcceptedThenGone(s: Store, run: seq<Timed>, id: InviteId, k: nat)
    requires 0 < k < |run| && run[0].op == AcceptOp(id) && run[k].op == AcceptOp(id)
    requires forall i :: 0 <= i < |run| && run[i].op.CreateOp? ==> run[i].op.id != id
    ensures Apply(StoreAfter(s, run[..k]), run[k]).1 == AcceptedBy(None)
  {
    assert run[..k][1..] == run[1..][..k - 1];
    NeverAcceptedAgain(Apply(s, run[0]).0, run[1..], id, k - 1);
  }

  lemma {:induction false} InTwoParts(s: Store, a: seq<Timed>, b: seq<Timed>)
    ensures StoreAfter(s, a + b) == StoreAfter(StoreAfter(s, a), b)
    decreases |a|
  {
    if a == [] {
      assert a + b == b;
    } else {
      assert (a + b)[1..] == a[1..] + b;
      InTwoParts(Apply(s, a[0]).0, a[1..], b);
    }
  }

  // What is stored was stored before or has been created.
  lemma {:induction false} StoredWasCreated(s: Store, run: seq<Timed>, id: InviteId)
    requires id in StoreAfter(s, run)
    ensures id in s || exists i :: 0 <= i < |run| && run[i].op.CreateOp? && run[i].op.id == id
    decreases |run|
  {
    if run != [] {
      StoredWasCreated(Apply(s, run[0]).0, run[1..], id);
      if i :| 0 <= i < |run[1..]| && run[1..][i].op.CreateOp? && run[1..][i].op.id == id {
        assert run[i + 1] == run[1..][i];
      }
    }
  }

  // Every generated id is new.
  ghost predicate FreshIds(run: seq<Timed>) {
    forall i, j :: 0 <= i < j < |run| && run[i].op.CreateOp? && run[j].op.CreateOp? ==> run[i].op.id != run[j].op.id
  }

  // In a whole run no id is accepted twice: after an acceptance every other one is refused.
  lemma AcceptedOnce(run: seq<Timed>, id: InviteId, k: nat, l: nat)
    requires FreshIds(run) && k < l < |run| && run[k].op == AcceptOp(id) && run[l].op == AcceptOp(id)
    requires Apply(StoreAfter(map[], run[..k]), run[k]).1 != AcceptedBy(None)
    ensures Apply(StoreAfter(map[], run[..l]), run[l]).1 == AcceptedBy(None)
  {
    StoredWasCreated(map[], run[..k], id);
    var j :| 0 <= j < k && run[..k][j].op.CreateOp? && run[..k][j].op.id == id;
    assert run[j] == run[..k][j];
    var rest := run[k..];
    forall i | 0 <= i < |rest| && rest[i].op.CreateOp? ensures rest[i].op.id != id {
      assert rest[i] == run[k + i];
    }
    AcceptedThenGone(StoreAfter(map[], run[..k]), rest, id, l - k);
    assert run[..l] == run[..k] + rest[..l - k];
    InTwoParts(map[], run[..k], rest[..l - k]);
  }

  // ----- What each operation of a run does

  // An invite that is created can be got for 30 seconds, by its id, and nothing else changes.
  lemma CreatedLives(s: Store, at: int, from: Guid, to: Guid, newId: InviteId, id: InviteId, later: int)
    requires newId !in s && !exists i :: i in SentBy(s, from, at) && i.to == to
    ensures var (n, a) := Apply(s, Timed(at, CreateOp(from, to, newId)));
      && a == Created(Some(newId))
      && Get(n, id, later) == if id != newId then Get(s, id, later)
                              else if later - at <= 30_000_000_000 then Some(Invite(newId, from, to, at)) else None
  {
    assert forall i :: i in s && !Expired(s[i], at) && s[i].from == from ==> s[i] in SentBy(s, from, at);
  }

  // A second invite of a pair is refused as long as the first can be got.
  lemma SecondIsRefused(s: Store, at: int, from: Guid, to: Guid, newId: InviteId, id: InviteId)
    requires Get(s, id, at).Some? && Get(s, id, at).value.from == from && Get(s, id, at).value.to == to
    ensures Apply(s, Timed(at, CreateOp(from, to, newId))) == (s, Created(None))
  {
    assert Active(s, id, at);
  }

  // Accepting gives the pair of what can be got; afterwards nobody gets it.
  lemma AcceptTakes(s: Store, at: int, id: InviteId, other: InviteId, later: int)
    ensures var (n, a) := Apply(s, Timed(at, AcceptOp(id)));
      && a == AcceptedBy(match Get(s, id, at) case Some(i) => Some((i.from, i.to)) case None => None)
      && Get(n, other, later) == if other == id then None else Get(s, other, later)
  {
  }

  lemma DeclineTakes(s: Store, at: int, id: InviteId, other: InviteId, later: int)
    ensures var n := Apply(s, Timed(at, DeclineOp(id))).0;
      Get(n, other, later) == if other == id then None else Get(s, other, later)
  {
  }

  // Only the sender's cancelling takes an invite away.
  lemma CancelTakes(s: Store, at: int, id: InviteId, from: Guid, other: InviteId, later: int)
    ensures var n := Apply(s, Timed(at, CancelOp(id, from))).0;
      Get(n, other, later) ==
      if other == id && Get(s, id, later).Some? && Get(s, id, later).value.from == from then None else Get(s, other, later)
  {
  }

  // Of a player who is removed no invite can be got, sent or received; all others can.
  lemma RemoveTakes(s: Store, at: int, g: Guid, id: InviteId, later: int)
    ensures var n := Apply(s, Timed(at, RemoveOp(g))).0;
      Get(n, id, later) ==
      match Get(s, id, later)
      case Some(i) => if i.from == g || i.to == g then None else Some(i)
      case None => None
  {
  }

  // After a cleanup everything stored can be got, and nothing that could be got is gone.
  lemma CleanupTakes(s: Store, at: int, id: InviteId)
    ensures var n := Apply(s, Timed(at, CleanupOp)).0;
      Get(n, id, at) == Get(s, id, at) && (id in n <==> Get(s, id, at).Some?)
  {
  }

  // The lists and the test are about what can be got.
  lemma ListsAreWhatCanBeGot(s: Store, g: Guid, to: Guid, now: int, i: Invite)
    ensures i in SentBy(s, g, now) <==> i.from == g && exists id :: Get(s, id, now) == Some(i)
    ensures i in Addressed(s, g, now) <==> i.to == g && exists id :: Get(s, id, now) == Some(i)
    ensures HasActive(s, g, to, now) <==> exists k :: k in SentBy(s, g, now) && k.to == to
  {
    if i in SentBy(s, g, now) || i in Addressed(s, g, now) {
      var id :| id in s && !Expired(s[id], now) && s[id] == i;
      assert Get(s, id, now) == Some(i);
    }
    if id :| Get(s, id, now) == Some(i) {
      assert id in s && s[id] == i && !Expired(s[id], now);
    }
    if id :| Active(s, id, now) && s[id].from == g && s[id].to == to {
      assert s[id] in SentBy(s, g, now);
    }
    if k :| k in SentBy(s, g, now) && k.to == to {
      var id :| id in s && s[id].from == g && !Expired(s[id], now) && s[id] == k;
      assert Active(s, id, now);
    }
  }
}
