// The loop-private store of internal/broker/broker.go and the code the run loop
// executes on it. Maps are updated in place and ranged over in an order the method
// does not control; each method's contract is the command it carries out.
module States {
  import opened Types
  import opened Inboxes
  import opened TokenBuckets
  import opened Livelock
  import opened Pushers
  import opened BrokerModel
  import opened Effects
  import opened Invariants

  // ---- Ranging over a map --------------------------------------------------------

  // The pool once the pushers in `told` have been handed ev.
  ghost function Told(pool: seq<PusherState>, told: map<Id, nat>, exclude: Id, ev: Event): seq<PusherState> {
    seq(|pool|, i requires 0 <= i < |pool| => if ListensAs(told, exclude, i) then Hand(pool[i], ev) else pool[i])
  }

  lemma ToldNobody(pool: seq<PusherState>, exclude: Id, ev: Event)
    ensures Told(pool, map[], exclude, ev) == pool
  {
  }

  lemma ToldOneMore(pool: seq<PusherState>, told: map<Id, nat>, id: Id, pid: nat, exclude: Id, ev: Event)
    requires id !in told && pid < |pool| && forall i :: i in told ==> told[i] != pid
    ensures Told(pool, told[id := pid], exclude, ev) ==
            if id == exclude then Told(pool, told, exclude, ev) else HandTo(Told(pool, told, exclude, ev), pid, ev)
  {
    var next := told[id := pid];
    forall i | 0 <= i < |pool|
      ensures ListensAs(next, exclude, i) <==> ListensAs(told, exclude, i) || (i == pid && id != exclude)
    {
      if ListensAs(told, exclude, i) {
        var j :| j in told && j != exclude && told[j] == i;
        assert j in next && next[j] == i;
      }
      if i == pid && id != exclude { assert id in next && next[id] == i; }
    }
  }

  lemma ToldEverybody(b: Broker, exclude: Id, ev: Event)
    ensures b.(pool := Told(b.pool, b.pushers, exclude, ev)) == NotifyPeers(b, exclude, ev)
  {
    hide ListensAs;
  }

  lemma OwnersAreInjective(b: Broker)
    requires PushersOwned(b)
    ensures forall i, j :: i in b.pushers && j in b.pushers && b.pushers[i] == b.pushers[j] ==> i == j
    ensures forall i :: i in b.pushers ==> b.pushers[i] < |b.pool|
  {
    hide Sound, Active;
  }

  lemma AnOrder(keys: set<Id>) returns (order: seq<Id>)
    ensures IsOrder(order, keys)
  {
    order := [];
    var todo := keys;
    while todo != {}
      invariant todo <= keys && IsOrder(order, keys - todo)
    {
      var id :| id in todo;
      order, todo := order + [id], todo - {id};
    }
  }

  lemma FanoutStep(b: Broker, from: Id, content: string, order: seq<Id>, id: Id, stamps: map<Id, Stamp>)
    ensures BrokerModel.Fanout(b, from, content, order + [id], stamps) ==
            FanTo(BrokerModel.Fanout(b, from, content, order, stamps), from, content, id, StampFor(stamps, id))
    ensures id == from ==> BrokerModel.Fanout(b, from, content, order + [id], stamps) == BrokerModel.Fanout(b, from, content, order, stamps)
    ensures Others(order + [id], from) == Others(order, from) + if id == from then 0 else 1
  {
    assert (order + [id])[..|order|] == order;
  }

  lemma ReapStep(b: Broker, now: Time, order: seq<Id>, id: Id)
    ensures ReapEach(b, now, order + [id]) == ReapOne(ReapEach(b, now, order), now, id)
  {
    assert (order + [id])[..|order|] == order;
  }

  lemma ReapSteps(b: Broker, now: Time, order: seq<Id>)
    ensures Exec(b, Cmd.Reap(now, order)) ==
            var b1 := ReapEach(b.(clock := now), now, order);
            Result(b1.(sessions := Expire(b1.sessions, now)), Done)
  {
  }

  lemma SubscribeSteps(b: Broker, id: Id)
    requires id in b.pushers ==> b.pushers[id] < |b.pool|
    ensures var pool := if id in b.pushers then b.pool[b.pushers[id] := Stopped(b.pool[b.pushers[id]])] else b.pool;
            Exec(b, Cmd.Subscribe(id)) ==
            Result(b.(pool := pool + [New(id, b.cfg.maxInboxSize)], pushers := b.pushers[id := |b.pool|]), Subscribed(|b.pool|))
  {
    hide Stopped, New;
    if id in b.pushers { assert (b.pushers - {id})[id := |b.pool|] == b.pushers[id := |b.pool|]; }
  }

  lemma ExpiredAll(was: map<Id, Entry>, sessions: map<Id, Entry>, now: Time)
    requires sessions.Keys == was.Keys
    requires forall id :: id in was ==> sessions[id] == was[id].(inbox := Unexpired(was[id].inbox, now))
    ensures sessions == Expire(was, now)
  {
    hide Unexpired;
  }

  // A fresh id and a creation time for every copy a broadcast may make.
  predicate Stampable(ids: set<Id>, stamps: map<Id, Stamp>, now: Time, end: Time) {
    ids <= stamps.Keys && forall id :: id in ids ==> now <= stamps[id].at <= end
  }

  lemma MayBroadcast(b: Broker, now: Time, from: Id, content: string, order: seq<Id>, stamps: map<Id, Stamp>, end: Time)
    requires b.clock <= now <= end && Stampable(b.sessions.Keys + {from}, stamps, now, end)
    requires IsOrder(order, b.sessions.Keys + {from})
    ensures Admissible(b, Cmd.Broadcast(now, from, content, order, stamps, end))
  {
  }

  lemma BroadcastSteps(b: Broker, now: Time, from: Id, content: string, order: seq<Id>, stamps: map<Id, Stamp>, end: Time)
    ensures Exec(b, Cmd.Broadcast(now, from, content, order, stamps, end)) ==
            if HasToken(b, from, now) then
              Result(BrokerModel.Fanout(Charged(b, from, now), from, content, order, stamps).(clock := end), Fanned(Others(order, from)))
            else Result(Charged(b, from, now), RateLimited)
  {
  }

  lemma OrderSnoc(order: seq<Id>, keys: set<Id>, todo: set<Id>, id: Id)
    requires IsOrder(order, keys - todo) && id in todo
    ensures IsOrder(if id in keys then order + [id] else order, keys - (todo - {id}))
  {
  }

  lemma NothingListed(b: Broker, caller: Id, now: Time)
    ensures IsOrder([], VisiblePeers(b, caller, now).Keys - b.sessions.Keys)
  {
  }

  // A listing made while ranging over all sessions.
  lemma ListingIsWhole(b: Broker, caller: Id, now: Time, peers: seq<Session>, order: seq<Id>)
    requires var visible := VisiblePeers(b, caller, now);
             && IsOrder(order, visible.Keys - {}) && |peers| == |order|
             && forall i :: 0 <= i < |peers| ==> order[i] in visible && peers[i] == visible[order[i]]
    ensures var visible := VisiblePeers(b, caller, now);
            && Exec(b, Cmd.ListPeers(now, caller)).reply == Peers(visible)
            && IsOrder(order, visible.Keys) && |peers| == |visible|
            && forall k :: k in visible ==> visible[k] in peers
    ensures forall k :: k in order <==> k in b.sessions && k != caller && now - b.sessions[k].session.lastSeen <= b.cfg.sessionTTL
    ensures forall i :: 0 <= i < |peers| ==> order[i] in order && order[i] in b.sessions && peers[i] == b.sessions[order[i]].session
  {
    hide VisiblePeers;
    var visible := VisiblePeers(b, caller, now);
    assert visible.Keys - {} == visible.Keys;
    OrderSize(order, visible.Keys);
    assert |visible| == |visible.Keys|;
    forall k { VisibleAt(b, caller, now, k); }
    forall k | k in visible ensures visible[k] in peers {
      var i :| 0 <= i < |order| && order[i] == k;
      assert peers[i] == visible[k];
    }
  }

  lemma VisibleAt(b: Broker, caller: Id, now: Time, k: Id)
    ensures k in VisiblePeers(b, caller, now) <==>
            k in b.sessions && k != caller && now - b.sessions[k].session.lastSeen <= b.cfg.sessionTTL
    ensures k in VisiblePeers(b, caller, now) ==> VisiblePeers(b, caller, now)[k] == b.sessions[k].session
  {
  }

  class State {
    const cfg: Settings
    var sessions: map<Id, Entry>
    var pushers: map<Id, nat>
    var pool: seq<PusherState>
    const livelock: LivelockTracker
    ghost var clock: Time

    ghost function Model(): Broker
      reads this, livelock
    {
      Broker(cfg, sessions, pushers, pool, livelock.histories, clock)
    }

    ghost predicate Valid()
      reads this, livelock
    {
      && PushersOwned(Model())
      && livelock.Valid() && livelock.latest <= clock
      && livelock.enabled == cfg.livelockEnabled && livelock.maxChain == cfg.livelockMaxChain
      && livelock.resetIdle == cfg.livelockResetIdle
    }

    constructor (raw: Config, ghost now: Time)
      ensures Valid() && Model() == Init(raw.WithDefaults(), now) && fresh(livelock)
    {
      cfg := raw.WithDefaults();
      sessions, pushers, pool, clock := map[], map[], [], now;
      livelock := new LivelockTracker(raw.WithDefaults(), now);
    }

    // deliver
    method Deliver(id: Id, ev: Event)
      requires Valid()
      modifies `pool
      ensures Valid() && Model() == BrokerModel.Deliver(old(Model()), id, ev)
    {
      DeliverKeeps(Model(), id, ev);
      hide PushersOwned;
      if id in pushers {
        pool := pool[pushers[id] := Hand(pool[pushers[id]], ev)];
      }
    }

    // notifyPeers
    method NotifyPeers(exclude: Id, ev: Event)
      requires Valid()
      modifies `pool
      ensures Valid() && Model() == BrokerModel.NotifyPeers(old(Model()), exclude, ev)
    {
      NotifyPeersKeeps(Model(), exclude, ev);
      OwnersAreInjective(Model());
      ToldEverybody(Model(), exclude, ev);
      hide PushersOwned, Told, BrokerModel.NotifyPeers;
      TellAll(exclude, ev);
    }

    // The loop of notifyPeers.
    method TellAll(exclude: Id, ev: Event)
      requires forall i :: i in pushers ==> pushers[i] < |pool|
      requires forall i, j :: i in pushers && j in pushers && pushers[i] == pushers[j] ==> i == j
      modifies `pool
      ensures pool == Told(old(pool), pushers, exclude, ev)
    {
      hide ListensAs, Hand;
      ghost var told: map<Id, nat> := map[];
      ToldNobody(pool, exclude, ev);
      hide Told;
      var todo := pushers.Keys;
      while todo != {}
        invariant todo <= pushers.Keys && told == pushers - todo
        invariant pool == Told(old(pool), told, exclude, ev) && |pool| == |old(pool)|
      {
        var id :| id in todo;
        ToldOneMore(old(pool), told, id, pushers[id], exclude, ev);
        todo, told := todo - {id}, told[id := pushers[id]];
        if id != exclude {
          pool := pool[pushers[id] := Hand(pool[pushers[id]], ev)];
        }
      }
      assert told == pushers;
    }

    // The deletion that UnregisterSession and reap share.
    method Remove(id: Id)
      requires Valid() && id in sessions
      modifies `sessions, `pushers, `pool
      ensures Valid() && Model() == RemoveSession(old(Model()), id)
    {
      SessionsDoNotOwn(Model(), sessions - {id}, livelock.histories, clock);
      sessions := sessions - {id};
      StopPusher(id);
      NotifyPeers(id, PeerLeft(id));
    }

    // The stopPush and delete of a session's pusher, if it has one.
    method StopPusher(id: Id)
      requires Valid()
      modifies `pushers, `pool
      ensures Valid() && Model() == DropPusher(old(Model()), id)
    {
      DropPusherKeeps(Model(), id);
      OwnersAreInjective(Model());
      hide PushersOwned;
      if id in pushers {
        pool := pool[pushers[id] := Stopped(pool[pushers[id]])];
        pushers := pushers - {id};
      }
    }

    method RegisterSession(now: Time, id: Id, path: string) returns (s: Session)
      requires Valid() && Admissible(Model(), Register(now, id, path))
      modifies this
      ensures Valid() && Result(Model(), Registered(s)) == Exec(old(Model()), Register(now, id, path))
    {
      s := Session(id, path, now, now);
      var entry := Entry(s, [], Full(cfg.broadcastBurst, cfg.broadcastRefill, now));
      SessionsDoNotOwn(Model(), sessions[id := entry], livelock.histories, now);
      sessions, clock := sessions[id := entry], now;
      NotifyPeers(id, PeerJoined(s));
    }

    method Touch(now: Time, id: Id)
      requires Valid() && Admissible(Model(), Cmd.Touch(now, id))
      modifies this
      ensures Valid() && Result(Model(), Done) == Exec(old(Model()), Cmd.Touch(now, id))
    {
      ExecKeepsOwnership(Model(), Cmd.Touch(now, id));
      if id in sessions {
        sessions := sessions[id := sessions[id].(session := sessions[id].session.(lastSeen := now))];
      }
      clock := now;
    }

    method UnregisterSession(id: Id)
      requires Valid()
      modifies this
      ensures Valid() && Result(Model(), Done) == Exec(old(Model()), Unregister(id))
    {
      if id !in sessions {
        return;
      }
      Remove(id);
    }

    // listPeers: copies of the sessions that are not stale, in range order.
    method ListPeers(now: Time, id: Id) returns (peers: seq<Session>, ghost order: seq<Id>)
      requires Valid()
      ensures var visible := VisiblePeers(Model(), id, now);
              && Exec(Model(), Cmd.ListPeers(now, id)).reply == Peers(visible)
              && IsOrder(order, visible.Keys) && |peers| == |order|
              && forall i :: 0 <= i < |peers| ==> peers[i] == visible[order[i]]
      ensures |peers| == |VisiblePeers(Model(), id, now)|
      ensures forall k :: k in VisiblePeers(Model(), id, now) ==> VisiblePeers(Model(), id, now)[k] in peers
      ensures forall k :: k in order <==> k in sessions && k != id && now - sessions[k].session.lastSeen <= cfg.sessionTTL
      ensures forall i :: 0 <= i < |peers| ==> order[i] in order && peers[i] == sessions[order[i]].session
    {
      hide VisiblePeers, PushersOwned, IsOrder;
      ghost var visible := VisiblePeers(Model(), id, now);
      peers, order := [], [];
      var todo := sessions.Keys;
      NothingListed(Model(), id, now);
      while todo != {}
        invariant todo <= sessions.Keys && IsOrder(order, visible.Keys - todo)
        invariant |peers| == |order| && forall i :: 0 <= i < |order| ==> order[i] in visible && peers[i] == visible[order[i]]
      {
        var peer :| peer in todo;
        VisibleAt(Model(), id, now, peer);
        OrderSnoc(order, visible.Keys, todo, peer);
        todo := todo - {peer};
        var e := sessions[peer];
        if peer == id || e.session.IsStaleAt(now, cfg.sessionTTL) {
          continue;
        }
        peers, order := peers + [e.session], order + [peer];
      }
      ListingIsWhole(Model(), id, now, peers, order);
    }

    method Lookup(id: Id) returns (s: Option<Session>)
      ensures Exec(Model(), Cmd.Lookup(id)).reply == Found(s)
      ensures s.Some? <==> id in sessions
      ensures s.Some? ==> s.value == sessions[id].session
    {
      return if id in sessions then Some(sessions[id].session) else None;
    }

    // enqueue, on the entry of id.
    method Enqueue(id: Id, m: Message)
      requires Valid() && id in sessions
      modifies `sessions
      ensures Valid() && Model() == WithInbox(old(Model()), id, m)
    {
      SessionsDoNotOwn(Model(), WithInbox(Model(), id, m).sessions, livelock.histories, clock);
      var e := sessions[id];
      var inbox := e.inbox;
      if |inbox| >= cfg.maxInboxSize {
        inbox := inbox[1..];
      }
      sessions := sessions[id := e.(inbox := inbox + [m])];
    }

    method Send(msg: Message, id: Id, at: Time, tripAt: Time) returns (r: Reply)
      requires Valid() && Admissible(Model(), Cmd.Send(msg, id, at, tripAt))
      modifies this, livelock
      ensures Valid() && Result(Model(), r) == Exec(old(Model()), Cmd.Send(msg, id, at, tripAt))
    {
      hide PushersOwned;
      var m := msg.(id := id, createdAt := at, ttl := if msg.ttl <= 0 then cfg.messageTTL else msg.ttl);
      SessionsDoNotOwn(Model(), sessions, livelock.histories, at);
      clock := at;
      if m.to !in sessions {
        return UnknownSession;
      }
      if m.kind != KIND_MESSAGE {
        Deliver(m.to, MessageEvent(m));
        return SentAs(m.id);
      }
      Enqueue(m.to, m);
      var tripped := TripBreaker(m, tripAt);
      if !tripped {
        Deliver(m.to, MessageEvent(m));
      }
      return SentAs(m.id);
    }

    // trip, on the loop's clock.
    method TripBreaker(m: Message, now: Time) returns (tripped: bool)
      requires Valid() && clock <= now
      modifies `clock, livelock
      ensures Valid()
      ensures Model() == old(Model()).(histories := Breaker(cfg, old(livelock.histories), m, now), clock := now)
      ensures tripped == Suppressed(cfg, livelock.histories, m)
    {
      hide PushersOwned, Trips, PairKey, NormalizeBody;
      SessionsDoNotOwn(Model(), sessions, Breaker(cfg, livelock.histories, m, now), now);
      tripped := livelock.Trip(m, now);
      clock := now;
    }

    // bucketFor, and the take on the bucket it returns.
    method TakeToken(from: Id, now: Time) returns (ok: bool)
      requires Valid() && clock <= now
      modifies `sessions, `clock
      ensures Valid() && Model() == Charged(old(Model()), from, now)
      ensures ok == HasToken(old(Model()), from, now)
    {
      hide PushersOwned, AfterTake, Grants;
      SessionsDoNotOwn(Model(), Charged(Model(), from, now).sessions, livelock.histories, now);
      if from !in sessions {
        sessions := sessions[from := Entry(BLANK_SESSION, [], Full(cfg.broadcastBurst, cfg.broadcastRefill, now))];
      }
      var bucket := new TokenBucket.Of(sessions[from].bucket);
      ok := bucket.Take(now);
      sessions := sessions[from := sessions[from].(bucket := bucket.Value())];
      clock := now;
    }

    method Broadcast(from: Id, content: string, now: Time, stamps: map<Id, Stamp>, ghost end: Time)
      returns (r: Reply, ghost order: seq<Id>)
      requires Valid() && clock <= now <= end
      requires Stampable(sessions.Keys + {from}, stamps, now, end)
      modifies this
      ensures Valid() && Admissible(old(Model()), Cmd.Broadcast(now, from, content, order, stamps, end))
      ensures Result(Model(), r) == Exec(old(Model()), Cmd.Broadcast(now, from, content, order, stamps, end))
    {
      hide PushersOwned, AfterTake, Grants, Charged, HasToken, BrokerModel.Fanout, Others, Exec, IsOrder, Admissible;
      ChargedKeys(Model(), from, now);
      var ok := TakeToken(from, now);
      assert sessions.Keys == old(sessions).Keys + {from};
      if !ok {
        order := AnOrder(sessions.Keys);
        MayBroadcast(old(Model()), now, from, content, order, stamps, end);
        BroadcastSteps(old(Model()), now, from, content, order, stamps, end);
        return RateLimited, order;
      }
      var n: nat;
      n, order := Fanout(from, content, stamps);
      MayBroadcast(old(Model()), now, from, content, order, stamps, end);
      BroadcastSteps(old(Model()), now, from, content, order, stamps, end);
      SessionsDoNotOwn(Model(), sessions, livelock.histories, end);
      clock := end;
      return Fanned(n), order;
    }

    // The body of fanout's loop.
    method FanOne(from: Id, content: string, to: Id, st: Stamp)
      requires Valid() && to in sessions && to != from
      modifies `sessions, `pool
      ensures Valid() && Model() == FanTo(old(Model()), from, content, to, st)
      ensures sessions.Keys == old(sessions).Keys
    {
      hide PushersOwned;
      var m := Message(st.id, from, to, content, st.at, cfg.messageTTL, "", false, KIND_MESSAGE, "");
      Enqueue(to, m);
      Deliver(to, MessageEvent(m));
    }

    // fanout
    method Fanout(from: Id, content: string, stamps: map<Id, Stamp>) returns (n: nat, ghost order: seq<Id>)
      requires Valid() && sessions.Keys <= stamps.Keys
      modifies `sessions, `pool
      ensures Valid() && IsOrder(order, old(sessions).Keys)
      ensures Model() == BrokerModel.Fanout(old(Model()), from, content, order, stamps)
      ensures n == Others(order, from)
    {
      hide PushersOwned, FanTo;
      n, order := 0, [];
      var todo := sessions.Keys;
      while todo != {}
        invariant Valid()
        invariant todo <= old(sessions).Keys && IsOrder(order, old(sessions).Keys - todo)
        invariant Model() == BrokerModel.Fanout(old(Model()), from, content, order, stamps)
        invariant sessions.Keys == old(sessions).Keys
        invariant n == Others(order, from)
      {
        var id :| id in todo;
        todo := todo - {id};
        FanoutStep(old(Model()), from, content, order, id, stamps);
        order := order + [id];
        if id == from {
          continue;
        }
        FanOne(from, content, id, stamps[id]);
        n := n + 1;
      }
    }

    method Poll(id: Id) returns (r: Reply)
      requires Valid()
      modifies `sessions
      ensures Valid() && Result(Model(), r) == Exec(old(Model()), Cmd.Poll(id))
    {
      ExecKeepsOwnership(Model(), Cmd.Poll(id));
      hide PushersOwned;
      if id !in sessions {
        return UnknownSession;
      }
      var msgs := sessions[id].inbox;
      sessions := sessions[id := sessions[id].(inbox := [])];
      return Polled(msgs);
    }

    // A new pusher takes the place of the session's old one, which is stopped.
    method Subscribe(id: Id) returns (pid: nat)
      requires Valid()
      modifies `pool, `pushers
      ensures Valid() && Result(Model(), Subscribed(pid)) == Exec(old(Model()), Cmd.Subscribe(id))
    {
      hide PushersOwned, DoSubscribe, Exec, Stopped, New;
      ExecKeepsOwnership(Model(), Cmd.Subscribe(id));
      OwnersAreInjective(Model());
      SubscribeSteps(Model(), id);
      var np := New(id, cfg.maxInboxSize);
      if id in pushers {
        pool := pool[pushers[id] := Stopped(pool[pushers[id]])];
      }
      pid := |pool|;
      pool, pushers := pool + [np], pushers[id := pid];
    }

    // The cancel function that Subscribe returned with pusher pid.
    method Cancel(id: Id, pid: nat)
      requires Valid()
      modifies `pool, `pushers
      ensures Valid() && Result(Model(), Done) == Exec(old(Model()), Cmd.Cancel(id, pid))
    {
      hide PushersOwned;
      if id in pushers && pushers[id] == pid {
        StopPusher(id);
      }
    }

    method Reap(now: Time) returns (ghost order: seq<Id>)
      requires Valid() && clock <= now
      modifies this, livelock
      ensures Valid() && Admissible(old(Model()), Cmd.Reap(now, order))
      ensures Result(Model(), Done) == Exec(old(Model()), Cmd.Reap(now, order))
    {
      hide PushersOwned, ReapEach, Expire;
      SessionsDoNotOwn(Model(), sessions, livelock.histories, now);
      clock := now;
      order := RemoveStale(now);
      ExpireMessages(now);
      livelock.Prune(now);
      ReapSteps(old(Model()), now, order);
    }

    // reap's loop.
    method RemoveStale(now: Time) returns (ghost order: seq<Id>)
      requires Valid()
      modifies `sessions, `pushers, `pool
      ensures Valid() && IsOrder(order, old(sessions).Keys)
      ensures Model() == ReapEach(old(Model()), now, order)
    {
      hide PushersOwned, RemoveSession;
      order := [];
      var todo := sessions.Keys;
      while todo != {}
        invariant Valid()
        invariant todo <= old(sessions).Keys && IsOrder(order, old(sessions).Keys - todo)
        invariant Model() == ReapEach(old(Model()), now, order)
      {
        ReapSessions(old(Model()), now, order);
        var id :| id in todo;
        todo := todo - {id};
        assert id in sessions;
        ReapStep(old(Model()), now, order, id);
        order := order + [id];
        if !sessions[id].session.IsStaleAt(now, cfg.sessionTTL) {
          continue;
        }
        Remove(id);
      }
    }

    // expireMessages
    method ExpireMessages(now: Time)
      requires Valid()
      modifies `sessions
      ensures Valid() && Model() == old(Model()).(sessions := Expire(old(sessions), now))
    {
      SessionsDoNotOwn(Model(), Expire(sessions, now), livelock.histories, clock);
      hide PushersOwned, Unexpired, Expire;
      ghost var was := sessions;
      var todo := sessions.Keys;
      while todo != {}
        invariant todo <= was.Keys == sessions.Keys
        invariant forall id :: id in was && id in todo ==> sessions[id] == was[id]
        invariant forall id :: id in was && id !in todo ==> sessions[id] == was[id].(inbox := Unexpired(was[id].inbox, now))
      {
        var id :| id in todo;
        todo := todo - {id};
        var e := sessions[id];
        sessions := sessions[id := e.(inbox := Unexpired(e.inbox, now))];
      }
      ExpiredAll(was, sessions, now);
    }
  }
}
