// The net effect of the loop's iterations over its maps, independent of the order
// in which the maps are visited.
module Effects {
  import opened Types
  import opened Inboxes
  import opened TokenBuckets
  import opened BrokerModel

  ghost predicate Distinct(order: seq<Id>) {
    forall i, j :: 0 <= i < j < |order| ==> order[i] != order[j]
  }

  ghost predicate Stale(b: Broker, id: Id, now: Time) {
    id in b.sessions && b.sessions[id].session.IsStaleAt(now, b.cfg.sessionTTL)
  }

  // ---- fanout ------------------------------------------------------------------

  ghost function AfterFan(b: Broker, from: Id, content: string, order: seq<Id>, stamps: map<Id, Stamp>, id: Id): Entry
    requires id in b.sessions
  {
    var e := b.sessions[id];
    if id == from || id !in order then e
    else e.(inbox := Enqueued(e.inbox, Copy(b.cfg, from, content, id, StampFor(stamps, id)), b.cfg.maxInboxSize))
  }

  lemma FanToSessions(b: Broker, from: Id, content: string, to: Id, st: Stamp)
    ensures var c := FanTo(b, from, content, to, st);
            && c == b.(sessions := c.sessions, pool := c.pool) && |c.pool| == |b.pool|
            && c.sessions == if to == from || to !in b.sessions then b.sessions
                             else WithInbox(b, to, Copy(b.cfg, from, content, to, st)).sessions
  {
  }

  // Every session but the sender gets exactly one copy, whatever the order.
  lemma {:induction false} FanoutSessions(b: Broker, from: Id, content: string, order: seq<Id>, stamps: map<Id, Stamp>)
    requires Distinct(order)
    ensures var c := Fanout(b, from, content, order, stamps);
            && c == b.(sessions := c.sessions, pool := c.pool) && |c.pool| == |b.pool|
            && c.sessions.Keys == b.sessions.Keys
            && forall id :: id in b.sessions ==> c.sessions[id] == AfterFan(b, from, content, order, stamps, id)
  {
    hide FanTo, Copy, Enqueued;
    if order != [] {
      var n := |order| - 1;
      var to := order[n];
      FanoutSessions(b, from, content, order[..n], stamps);
      FanToSessions(Fanout(b, from, content, order[..n], stamps), from, content, to, StampFor(stamps, to));
      assert to !in order[..n];
      assert forall id :: id in order <==> id in order[..n] || id == to by { assert order == order[..n] + [to]; }
    }
  }

  lemma {:induction false} OthersCount(order: seq<Id>, from: Id)
    requires Distinct(order)
    ensures Others(order, from) == |order| - if from in order then 1 else 0
  {
    if order != [] {
      var n := |order| - 1;
      OthersCount(order[..n], from);
      assert order == order[..n] + [order[n]];
    }
  }

  lemma {:induction false} OrderSize(order: seq<Id>, keys: set<Id>)
    requires IsOrder(order, keys)
    ensures |order| == |keys|
  {
    if order != [] {
      var n := |order| - 1;
      assert order == order[..n] + [order[n]];
      forall id | id in keys - {order[n]} ensures id in order[..n] { assert id in order; }
      forall id | id in order[..n] ensures id in keys - {order[n]} { assert id in order; }
      OrderSize(order[..n], keys - {order[n]});
    } else {
      assert keys == {};
    }
  }

  // Before the fan-out: the sender has an entry and has tried to spend a token.
  ghost function Charged(b: Broker, from: Id, now: Time): Broker {
    var b1 := WithBucketFor(b, from, now);
    b1.(sessions := b1.sessions[from := b1.sessions[from].(bucket := AfterTake(b1.sessions[from].bucket, now))], clock := now)
  }

  ghost predicate HasToken(b: Broker, from: Id, now: Time) {
    Grants(WithBucketFor(b, from, now).sessions[from].bucket, now)
  }

  lemma BroadcastEffect(b: Broker, now: Time, from: Id, content: string, order: seq<Id>, stamps: map<Id, Stamp>, end: Time)
    requires Distinct(order)
    ensures var d := Charged(b, from, now); var r := DoBroadcast(b, now, from, content, order, stamps, end);
            && r.state == d.(sessions := r.state.sessions, pool := r.state.pool, clock := r.state.clock)
            && |r.state.pool| == |b.pool|
            && r.state.sessions.Keys == b.sessions.Keys + {from}
            && r.reply == (if HasToken(b, from, now) then Fanned(Others(order, from)) else RateLimited)
            && forall id :: id in d.sessions ==>
                 r.state.sessions[id] ==
                 if HasToken(b, from, now) then AfterFan(d, from, content, order, stamps, id) else d.sessions[id]
  {
    hide AfterFan, Fanout, AfterTake;
    FanoutSessions(Charged(b, from, now), from, content, order, stamps);
  }

  // A broadcast reports every session but its sender, which always has an entry, and
  // each of them gets exactly one copy.
  lemma BroadcastReachesEveryone(b: Broker, cmd: Cmd)
    requires cmd.Broadcast? && Admissible(b, cmd)
    ensures var r := Exec(b, cmd);
            && cmd.id in r.state.sessions
            && r.reply == (if HasToken(b, cmd.id, cmd.now) then Fanned(|r.state.sessions| - 1) else RateLimited)
            && (r.reply.Fanned? ==> forall id :: id in b.sessions && id != cmd.id ==>
                  && id in r.state.sessions
                  && r.state.sessions[id].inbox ==
                  Enqueued(b.sessions[id].inbox, Copy(b.cfg, cmd.id, cmd.content, id, StampFor(cmd.stamps, id)), b.cfg.maxInboxSize))
  {
    hide DoBroadcast, Copy, Enqueued, HasToken, AfterTake;
    BroadcastEffect(b, cmd.now, cmd.id, cmd.content, cmd.order, cmd.stamps, cmd.end);
    OthersCount(cmd.order, cmd.id);
    OrderSize(cmd.order, b.sessions.Keys + {cmd.id});
    var c := Exec(b, cmd).state;
    assert |c.sessions| == |c.sessions.Keys|;
  }

  // ---- reap ---------------------------------------------------------------------

  // Exactly the stale sessions that were visited are gone; the rest are untouched.
  lemma {:induction false} ReapSessions(b: Broker, now: Time, order: seq<Id>)
    ensures var c := ReapEach(b, now, order);
            && c == b.(sessions := c.sessions, pushers := c.pushers, pool := c.pool) && |c.pool| == |b.pool|
            && (forall id :: id in c.sessions <==> id in b.sessions && !(id in order && Stale(b, id, now)))
            && (forall id :: id in c.sessions ==> c.sessions[id] == b.sessions[id])
            && (forall id :: id in c.pushers <==> id in b.pushers && !(id in order && Stale(b, id, now)))
            && (forall id :: id in c.pushers ==> c.pushers[id] == b.pushers[id])
  {
    if order != [] {
      var n := |order| - 1;
      ReapSessions(b, now, order[..n]);
      assert order == order[..n] + [order[n]];
      RemoveSessionEffect(ReapEach(b, now, order[..n]), order[n]);
    }
  }

  lemma RemoveSessionEffect(b: Broker, id: Id)
    ensures var c := RemoveSession(b, id);
            && c == b.(sessions := b.sessions - {id}, pushers := b.pushers - {id}, pool := c.pool)
            && |c.pool| == |b.pool|
  {
    if id !in b.pushers { assert b.pushers - {id} == b.pushers; }
  }

  ghost function Survivors(b: Broker, now: Time): map<Id, Entry> {
    map id | id in b.sessions && !Stale(b, id, now) :: b.sessions[id].(inbox := Unexpired(b.sessions[id].inbox, now))
  }

  // A reap leaves exactly the sessions that are not stale, with their live messages,
  // and exactly the pushers whose session was not reaped.
  lemma ReapEffect(b: Broker, now: Time, order: seq<Id>)
    requires IsOrder(order, b.sessions.Keys)
    ensures var c := Exec(b, Reap(now, order)).state;
            && c == b.(sessions := Survivors(b, now), pushers := c.pushers, pool := c.pool, clock := now)
            && c.pushers == (map id | id in b.pushers && !Stale(b, id, now) :: b.pushers[id])
            && |c.pool| == |b.pool|
  {
    var b1 := b.(clock := now);
    ReapSessions(b1, now, order);
    assert forall id :: Stale(b1, id, now) == Stale(b, id, now);
    assert forall id :: Stale(b, id, now) ==> id in order;
    var c := Exec(b, Reap(now, order)).state;
    assert c.sessions == Survivors(b, now);
    assert c.pushers == (map id | id in b.pushers && !Stale(b, id, now) :: b.pushers[id]);
  }

  // ---- Everything that can happen to one session ---------------------------------

  // The session entry of id after a command, from its entry before.
  ghost function EntryAfter(b: Broker, cmd: Cmd, id: Id): Option<Entry> {
    var before := if id in b.sessions then Some(b.sessions[id]) else None;
    match cmd
    case Register(now, i, path) =>
      if i == id then Some(Entry(Session(id, path, now, now), [], Full(b.cfg.broadcastBurst, b.cfg.broadcastRefill, now)))
      else before
    case Touch(now, i) =>
      if i == id && before.Some? then Some(before.value.(session := before.value.session.(lastSeen := now))) else before
    case Unregister(i) => if i == id then None else before
    case Send(msg, msgId, at, _) =>
      if msg.to == id && msg.kind == KIND_MESSAGE && before.Some? then
        Some(before.value.(inbox := Enqueued(before.value.inbox, Stamped(b.cfg, msg, msgId, at), b.cfg.maxInboxSize)))
      else before
    case Broadcast(now, from, content, order, stamps, _) =>
      var d := Charged(b, from, now);
      if id !in d.sessions then None
      else Some(if HasToken(b, from, now) then AfterFan(d, from, content, order, stamps, id) else d.sessions[id])
    case Poll(i) => if i == id && before.Some? then Some(before.value.(inbox := [])) else before
    case Reap(now, order) =>
      if before.Some? && !(id in order && Stale(b, id, now)) then Some(before.value.(inbox := Unexpired(before.value.inbox, now)))
      else None
    case _ => before
  }

  lemma EntryAfterIsRight(b: Broker, cmd: Cmd, id: Id)
    requires cmd.Broadcast? ==> Distinct(cmd.order)
    ensures var c := Exec(b, cmd).state;
            EntryAfter(b, cmd, id) == if id in c.sessions then Some(c.sessions[id]) else None
  {
    hide NotifyPeers, DropPusher, Deliver, Enqueued, AfterTake, Unexpired;
    match cmd
    case Register(now, i, path) =>
      var s := Session(i, path, now, now);
      NotifySessions(b.(sessions := b.sessions[i := Entry(s, [], Full(b.cfg.broadcastBurst, b.cfg.broadcastRefill, now))], clock := now), i, PeerJoined(s));
    case Unregister(i) => RemoveSessionEffect(b, i);
    case Send(msg, msgId, at, tripAt) => SendSessions(b, msg, msgId, at, tripAt);
    case Broadcast(now, from, content, order, stamps, end) =>
      hide DoBroadcast, Charged, HasToken, AfterFan;
      BroadcastEffect(b, now, from, content, order, stamps, end);
      assert Charged(b, from, now).sessions.Keys == b.sessions.Keys + {from} by { ChargedKeys(b, from, now); }
    case Subscribe(i) => NotifySessions(b, i, PeerLeft(i));
    case Cancel(i, _) => NotifySessions(b, i, PeerLeft(i));
    case Reap(now, order) =>
      ReapSessions(b.(clock := now), now, order);
      assert Stale(b.(clock := now), id, now) == Stale(b, id, now);
    case _ =>
  }

  lemma ChargedKeys(b: Broker, from: Id, now: Time)
    ensures var d := Charged(b, from, now);
            && d == b.(sessions := d.sessions, clock := now)
            && d.sessions.Keys == b.sessions.Keys + {from}
            && forall id :: id in b.sessions && id != from ==> d.sessions[id] == b.sessions[id]
  {
    hide AfterTake;
  }

  lemma NotifySessions(b: Broker, id: Id, ev: Event)
    ensures NotifyPeers(b, id, ev).sessions == Deliver(b, id, ev).sessions == DropPusher(b, id).sessions == b.sessions
  {
  }

  lemma SendSessions(b: Broker, msg: Message, id: Id, at: Time, tripAt: Time)
    ensures DoSend(b, msg, id, at, tripAt).state.sessions ==
            if msg.to in b.sessions && msg.kind == KIND_MESSAGE then WithInbox(b, msg.to, Stamped(b.cfg, msg, id, at)).sessions
            else b.sessions
  {
  }
}
