// Go leaves the order of a map range open. Here is what the open order can and cannot
// change in the loop's two ranges with side effects.
module Confluence {
  import opened Types
  import opened Inboxes
  import opened Pushers
  import opened BrokerModel
  import opened Effects
  import opened Invariants
  import opened TokenBuckets
  import Suffix

  // The reaped ids, in the order they were visited.
  ghost function Reaped(b: Broker, now: Time, order: seq<Id>): seq<Id> {
    if order == [] then []
    else Reaped(b, now, order[..|order| - 1]) + if Stale(b, order[|order| - 1], now) then [order[|order| - 1]] else []
  }

  ghost function Farewells(ids: seq<Id>): seq<Event> {
    seq(|ids|, i requires 0 <= i < |ids| => PeerLeft(ids[i]))
  }

  lemma {:induction false} ReapedOnce(b: Broker, now: Time, order: seq<Id>)
    requires Distinct(order)
    ensures forall id :: id in Reaped(b, now, order) <==> id in order && Stale(b, id, now)
    ensures Distinct(Reaped(b, now, order))
  {
    if order != [] {
      var n := |order| - 1;
      ReapedOnce(b, now, order[..n]);
      assert order == order[..n] + [order[n]];
    }
  }

  // A pusher whose session stays hears of one reaped peer after the other.
  lemma RemovalIsHeard(b: Broker, id: Id, pid: nat)
    requires pid < |b.pool| && Active(b, pid) && b.pool[pid].owner != id
    requires id in b.pushers ==> b.pushers[id] != pid
    ensures var c := RemoveSession(b, id);
            && pid < |c.pool| && c.pool[pid] == Hand(b.pool[pid], PeerLeft(id)) && Active(c, pid)
  {
    var d := DropPusher(b.(sessions := b.sessions - {id}), id);
    assert d.pool[pid] == b.pool[pid];
    assert ListensAs(d.pushers, id, pid) by { assert b.pool[pid].owner in d.pushers && d.pushers[b.pool[pid].owner] == pid; }
  }

  // c is b after some sessions were reaped; pid has heard of those in gone.
  ghost predicate Heard(b: Broker, c: Broker, pid: nat, gone: seq<Id>)
    requires pid < |b.pool|
  {
    && pid < |c.pool| && Active(c, pid) && c.pool[pid].owner == b.pool[pid].owner
    && c.pool[pid].handed == b.pool[pid].handed + Farewells(gone)
  }

  // The active pusher of one session is not that of another.
  lemma OwnersDiffer(b: Broker, pid: nat, id: Id)
    requires PushersOwned(b) && pid < |b.pool| && id != b.pool[pid].owner
    ensures id in b.pushers ==> b.pushers[id] != pid
  {
    hide Sound, Active;
  }

  lemma OneMoreFarewell(b: Broker, c: Broker, d: Broker, pid: nat, gone: seq<Id>, id: Id)
    requires pid < |b.pool| && Heard(b, c, pid, gone)
    requires pid < |d.pool| && d.pool[pid] == Hand(c.pool[pid], PeerLeft(id)) && Active(d, pid)
    ensures Heard(b, d, pid, gone + [id])
  {
    hide Active;
    assert Farewells(gone + [id]) == Farewells(gone) + [PeerLeft(id)];
    assert d.pool[pid].handed == c.pool[pid].handed + [PeerLeft(id)];
  }

  lemma HearOne(b: Broker, c: Broker, pid: nat, gone: seq<Id>, now: Time, id: Id)
    requires pid < |b.pool| && Heard(b, c, pid, gone) && PushersOwned(c)
    requires id == b.pool[pid].owner ==> !Stale(c, id, now)
    ensures Heard(b, ReapOne(c, now, id), pid, gone + if Stale(c, id, now) then [id] else [])
  {
    hide PushersOwned, RemoveSession, Active, Farewells, Hand;
    if Stale(c, id, now) {
      OwnersDiffer(c, pid, id);
      RemovalIsHeard(c, id, pid);
      OneMoreFarewell(b, c, RemoveSession(c, id), pid, gone, id);
    } else {
      assert gone + [] == gone;
    }
  }

  lemma {:induction false} SurvivorHearsReaped(b: Broker, now: Time, order: seq<Id>, pid: nat)
    requires PushersOwned(b) && pid < |b.pool| && Active(b, pid) && !Stale(b, b.pool[pid].owner, now) && Distinct(order)
    ensures Heard(b, ReapEach(b, now, order), pid, Reaped(b, now, order))
  {
    hide PushersOwned, Active, ReapOne;
    if order != [] {
      var n := |order| - 1;
      SurvivorHearsReaped(b, now, order[..n], pid);
      ReapSessions(b, now, order[..n]);
      ReapEachKeeps(b, now, order[..n]);
      assert order[n] !in order[..n];
      HearOne(b, ReapEach(b, now, order[..n]), pid, Reaped(b, now, order[..n]), now, order[n]);
    } else {
      assert b.pool[pid].handed + Farewells([]) == b.pool[pid].handed;
    }
  }

  // For any two visiting orders a reap leaves the same sessions, inboxes and pushers;
  // every surviving pusher hears of each reaped session exactly once, and only the
  // order of those events is open.
  lemma ReapIsConfluent(b: Broker, now: Time, order1: seq<Id>, order2: seq<Id>)
    requires PushersOwned(b) && IsOrder(order1, b.sessions.Keys) && IsOrder(order2, b.sessions.Keys)
    ensures var c, d := Exec(b, Reap(now, order1)).state, Exec(b, Reap(now, order2)).state;
            && c == d.(pool := c.pool) && |c.pool| == |d.pool| == |b.pool|
            && forall pid: nat :: pid < |b.pool| && Active(b, pid) && !Stale(b, b.pool[pid].owner, now) ==>
                 && c.pool[pid].handed == b.pool[pid].handed + Farewells(Reaped(b, now, order1))
                 && d.pool[pid].handed == b.pool[pid].handed + Farewells(Reaped(b, now, order2))
    ensures forall id :: id in Reaped(b, now, order1) <==> id in Reaped(b, now, order2)
    ensures Distinct(Reaped(b, now, order1)) && Distinct(Reaped(b, now, order2))
    ensures |Reaped(b, now, order1)| == |Reaped(b, now, order2)|
  {
    ReapEffect(b, now, order1);
    ReapEffect(b, now, order2);
    ReapedOnce(b, now, order1);
    ReapedOnce(b, now, order2);
    SameReapedCount(Reaped(b, now, order1), Reaped(b, now, order2), b.sessions.Keys);
    forall pid: nat | pid < |b.pool| && Active(b, pid) && !Stale(b, b.pool[pid].owner, now)
      ensures Exec(b, Reap(now, order1)).state.pool[pid].handed == b.pool[pid].handed + Farewells(Reaped(b, now, order1))
      ensures Exec(b, Reap(now, order2)).state.pool[pid].handed == b.pool[pid].handed + Farewells(Reaped(b, now, order2))
    {
      ReapHeard(b, now, order1, pid);
      ReapHeard(b, now, order2, pid);
    }
    hide Exec, PushersOwned, Reaped, Farewells;
  }

  lemma ReapHeard(b: Broker, now: Time, order: seq<Id>, pid: nat)
    requires PushersOwned(b) && IsOrder(order, b.sessions.Keys)
    requires pid < |b.pool| && Active(b, pid) && !Stale(b, b.pool[pid].owner, now)
    ensures var c := Exec(b, Reap(now, order)).state;
            pid < |c.pool| && c.pool[pid].handed == b.pool[pid].handed + Farewells(Reaped(b, now, order))
  {
    hide PushersOwned, ReapEach, Reaped, Farewells;
    var b1 := b.(clock := now);
    SessionsDoNotOwn(b, b.sessions, b.histories, now);
    SurvivorHearsReaped(b1, now, order, pid);
    SameReaped(b, b1, now, order);
  }

  lemma {:induction false} SameReaped(b: Broker, c: Broker, now: Time, order: seq<Id>)
    requires b.sessions == c.sessions && b.cfg == c.cfg
    ensures Reaped(b, now, order) == Reaped(c, now, order)
  {
    if order != [] { SameReaped(b, c, now, order[..|order| - 1]); }
  }

  lemma SameReapedCount(a: seq<Id>, b: seq<Id>, keys: set<Id>)
    requires Distinct(a) && Distinct(b) && (forall id :: id in a <==> id in b) && (forall id :: id in a ==> id in keys)
    ensures |a| == |b|
  {
    var s := set id | id in keys && id in a;
    OrderSize(a, s);
    OrderSize(b, s);
  }

  // A fan-out hands each recipient's pusher exactly its own copy, in any order.
  lemma {:induction false} FanoutHandsOneCopy(b: Broker, from: Id, content: string, order: seq<Id>, stamps: map<Id, Stamp>, pid: nat)
    requires PushersOwned(b) && Distinct(order) && pid < |b.pool| && Active(b, pid)
    ensures var c := Fanout(b, from, content, order, stamps);
            var id := b.pool[pid].owner;
            && pid < |c.pool| && c.pushers == b.pushers && c.pool[pid].owner == id
            && c.pool[pid].handed == b.pool[pid].handed +
               if id in order && id != from && id in b.sessions then
                 [MessageEvent(Copy(b.cfg, from, content, id, StampFor(stamps, id)))]
               else []
  {
    hide PushersOwned, FanTo, Copy;
    if order != [] {
      var n := |order| - 1;
      var to := order[n];
      FanoutHandsOneCopy(b, from, content, order[..n], stamps, pid);
      FanoutSessions(b, from, content, order[..n], stamps);
      FanoutKeeps(b, from, content, order[..n], stamps);
      var c := Fanout(b, from, content, order[..n], stamps);
      assert to !in order[..n];
      assert forall id :: id in order <==> id in order[..n] || id == to by { assert order == order[..n] + [to]; }
      FanToHands(c, from, content, to, StampFor(stamps, to), pid);
    }
  }

  lemma FanToHands(b: Broker, from: Id, content: string, to: Id, st: Stamp, pid: nat)
    requires PushersOwned(b) && pid < |b.pool| && Active(b, pid)
    ensures var c := FanTo(b, from, content, to, st);
            var id := b.pool[pid].owner;
            && pid < |c.pool| && c.pushers == b.pushers && c.pool[pid].owner == id
            && c.pool[pid].handed == b.pool[pid].handed +
               if id == to && to != from && to in b.sessions then [MessageEvent(Copy(b.cfg, from, content, to, st))] else []
  {
    hide Sound;
  }

  // For any two visiting orders a broadcast leaves the same sessions and inboxes, and
  // reports the same number.
  lemma BroadcastIsConfluent(b: Broker, now: Time, from: Id, content: string, order1: seq<Id>, order2: seq<Id>,
                             stamps: map<Id, Stamp>, end: Time)
    requires IsOrder(order1, b.sessions.Keys + {from}) && IsOrder(order2, b.sessions.Keys + {from})
    ensures var r1, r2 := DoBroadcast(b, now, from, content, order1, stamps, end), DoBroadcast(b, now, from, content, order2, stamps, end);
            r1.reply == r2.reply && r1.state == r2.state.(pool := r1.state.pool)
  {
    hide DoBroadcast, HasToken, Copy, Enqueued, AfterTake;
    BroadcastEffect(b, now, from, content, order1, stamps, end);
    BroadcastEffect(b, now, from, content, order2, stamps, end);
    SameOthers(order1, order2, b.sessions.Keys + {from}, from);
    ChargedKeys(b, from, now);
    SameAfterFan(Charged(b, from, now), from, content, order1, order2, stamps);
    Suffix.BroadcastClock(b, now, from, content, order1, stamps, end);
    Suffix.BroadcastClock(b, now, from, content, order2, stamps, end);
    hide Charged, IsOrder, AfterFan;
    assert DoBroadcast(b, now, from, content, order1, stamps, end).state.sessions ==
           DoBroadcast(b, now, from, content, order2, stamps, end).state.sessions;
  }

  lemma SameOthers(order1: seq<Id>, order2: seq<Id>, keys: set<Id>, from: Id)
    requires IsOrder(order1, keys) && IsOrder(order2, keys)
    ensures Others(order1, from) == Others(order2, from)
    ensures Distinct(order1) && Distinct(order2) && forall id :: id in order1 <==> id in order2
  {
    OthersCount(order1, from);
    OthersCount(order2, from);
    OrderSize(order1, keys);
    OrderSize(order2, keys);
  }

  lemma SameAfterFan(b: Broker, from: Id, content: string, order1: seq<Id>, order2: seq<Id>, stamps: map<Id, Stamp>)
    requires forall id :: id in order1 <==> id in order2
    ensures forall id :: id in b.sessions ==>
              AfterFan(b, from, content, order1, stamps, id) == AfterFan(b, from, content, order2, stamps, id)
  {
    hide Copy, Enqueued;
  }
}
