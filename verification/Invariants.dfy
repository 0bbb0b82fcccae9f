// What every command and every worker step keeps, and so every reachable state has.
module Invariants {
  import opened Types
  import opened Inboxes
  import opened TokenBuckets
  import opened Livelock
  import opened Pushers
  import opened BrokerModel

  // ---- Ownership of pushers -------------------------------------------------------

  // Pusher pid is the active one of its session.
  ghost predicate Active(b: Broker, pid: nat)
    requires pid < |b.pool|
  {
    b.pool[pid].owner in b.pushers && b.pushers[b.pool[pid].owner] == pid
  }

  ghost predicate Sound(p: PusherState, cap: int) {
    Accounted(p) && Owned(p) && LossesEarned(p) && p.cap == cap
  }

  // The loop's map holds exactly the pushers never told to stop, each under its own
  // session; the others were told exactly once.
  ghost predicate PushersOwned(b: Broker) {
    && (forall id :: id in b.pushers ==> b.pushers[id] < |b.pool| && b.pool[b.pushers[id]].owner == id)
    && (forall pid: nat :: pid < |b.pool| ==>
          && Sound(b.pool[pid], b.cfg.maxInboxSize)
          && b.pool[pid].stops == if Active(b, pid) then 0 else 1)
  }

  ghost predicate InboxesBounded(b: Broker) {
    forall id :: id in b.sessions ==> |b.sessions[id].inbox| <= b.cfg.maxInboxSize
  }

  ghost predicate Invariant(b: Broker) { PushersOwned(b) && InboxesBounded(b) }

  lemma HandIsSound(p: PusherState, ev: Event, cap: int)
    requires Sound(p, cap)
    ensures Sound(Hand(p, ev), cap)
  {
    hide Accounted, LossesEarned;
    HandKeepsAccount(p, ev);
    HandKeepsLosses(p, ev);
  }

  // Replacing the content of pushers, but not who owns them nor their stops.
  lemma PoolRefreshed(b: Broker, pool: seq<PusherState>)
    requires PushersOwned(b) && |pool| == |b.pool|
    requires forall pid: nat :: pid < |pool| ==>
               && Sound(pool[pid], b.cfg.maxInboxSize)
               && pool[pid].owner == b.pool[pid].owner && pool[pid].stops == b.pool[pid].stops
    ensures PushersOwned(b.(pool := pool))
  {
    hide Sound;
    var c := b.(pool := pool);
    assert forall pid: nat :: pid < |b.pool| ==> Active(c, pid) == Active(b, pid);
  }

  lemma DeliverKeeps(b: Broker, id: Id, ev: Event)
    requires PushersOwned(b)
    ensures PushersOwned(Deliver(b, id, ev))
  {
    if id in b.pushers {
      HandIsSound(b.pool[b.pushers[id]], ev, b.cfg.maxInboxSize);
      hide Sound;
      PoolRefreshed(b, HandTo(b.pool, b.pushers[id], ev));
    }
  }

  lemma NotifyPeersKeeps(b: Broker, exclude: Id, ev: Event)
    requires PushersOwned(b)
    ensures PushersOwned(NotifyPeers(b, exclude, ev))
  {
    hide Sound, ListensAs;
    var c := NotifyPeers(b, exclude, ev);
    forall pid: nat | pid < |b.pool|
      ensures Sound(c.pool[pid], b.cfg.maxInboxSize)
      ensures c.pool[pid].owner == b.pool[pid].owner && c.pool[pid].stops == b.pool[pid].stops
    {
      HandIsSound(b.pool[pid], ev, b.cfg.maxInboxSize);
    }
    PoolRefreshed(b, c.pool);
  }

  lemma DropPusherKeeps(b: Broker, id: Id)
    requires PushersOwned(b)
    ensures PushersOwned(DropPusher(b, id))
  {
    hide Accounted, LossesEarned;
    var c := DropPusher(b, id);
    if id in b.pushers {
      assert Active(b, b.pushers[id]);
      StopKeepsAccount(b.pool[b.pushers[id]]);
      forall pid: nat | pid < |b.pool| && pid != b.pushers[id] ensures Active(c, pid) == Active(b, pid) {}
    }
  }

  lemma StopKeepsAccount(p: PusherState)
    requires Accounted(p) && LossesEarned(p)
    ensures Accounted(Stopped(p)) && LossesEarned(Stopped(p))
  {
    LossesRest(p, Stopped(p));
  }

  lemma RemoveSessionKeeps(b: Broker, id: Id)
    requires PushersOwned(b)
    ensures PushersOwned(RemoveSession(b, id))
  {
    hide PushersOwned;
    var b1 := b.(sessions := b.sessions - {id});
    SessionsDoNotOwn(b, b1.sessions, b1.histories, b1.clock);
    DropPusherKeeps(b1, id);
    NotifyPeersKeeps(DropPusher(b1, id), id, PeerLeft(id));
  }

  // Ownership does not depend on the rest of the state.
  lemma SessionsDoNotOwn(b: Broker, sessions: map<Id, Entry>, histories: map<string, seq<Obs>>, clock: Time)
    requires PushersOwned(b)
    ensures PushersOwned(b.(sessions := sessions, histories := histories, clock := clock))
  {
    var c := b.(sessions := sessions, histories := histories, clock := clock);
    assert forall pid: nat :: pid < |b.pool| ==> Active(c, pid) == Active(b, pid);
  }

  lemma {:induction false} FanoutKeeps(b: Broker, from: Id, content: string, order: seq<Id>, stamps: map<Id, Stamp>)
    requires PushersOwned(b)
    ensures PushersOwned(Fanout(b, from, content, order, stamps))
  {
    if order != [] {
      var n := |order| - 1;
      FanoutKeeps(b, from, content, order[..n], stamps);
      FanToKeeps(Fanout(b, from, content, order[..n], stamps), from, content, order[n], StampFor(stamps, order[n]));
    }
  }

  lemma FanToKeeps(b: Broker, from: Id, content: string, to: Id, st: Stamp)
    requires PushersOwned(b)
    ensures PushersOwned(FanTo(b, from, content, to, st))
  {
    hide PushersOwned;
    if to != from && to in b.sessions {
      var m := Copy(b.cfg, from, content, to, st);
      SessionsDoNotOwn(b, WithInbox(b, to, m).sessions, b.histories, b.clock);
      DeliverKeeps(WithInbox(b, to, m), to, MessageEvent(m));
    }
  }

  lemma {:induction false} ReapEachKeeps(b: Broker, now: Time, order: seq<Id>)
    requires PushersOwned(b)
    ensures PushersOwned(ReapEach(b, now, order))
  {
    hide PushersOwned;
    if order != [] {
      var n := |order| - 1;
      ReapEachKeeps(b, now, order[..n]);
      RemoveSessionKeeps(ReapEach(b, now, order[..n]), order[n]);
    }
  }

  lemma SubscribeKeeps(b: Broker, id: Id)
    requires PushersOwned(b)
    ensures PushersOwned(DoSubscribe(b, id).state)
  {
    DropPusherKeeps(b, id);
    NewIsSound(id, b.cfg.maxInboxSize);
    hide PushersOwned, Sound, New;
    AddPusherKeeps(DropPusher(b, id), id, New(id, b.cfg.maxInboxSize));
  }

  lemma NewIsSound(id: Id, cap: nat)
    ensures Sound(New(id, cap), cap) && New(id, cap).owner == id && New(id, cap).stops == 0
  {
    NewIsAccounted(id, cap);
  }

  lemma AddPusherKeeps(b: Broker, id: Id, p: PusherState)
    requires PushersOwned(b) && id !in b.pushers
    requires Sound(p, b.cfg.maxInboxSize) && p.owner == id && p.stops == 0
    ensures PushersOwned(b.(pool := b.pool + [p], pushers := b.pushers[id := |b.pool|]))
  {
    hide Sound;
    var c := b.(pool := b.pool + [p], pushers := b.pushers[id := |b.pool|]);
    forall pid: nat | pid < |b.pool| ensures Active(c, pid) == Active(b, pid) && c.pool[pid] == b.pool[pid] {}
    assert Active(c, |b.pool|);
  }

  lemma ExecKeepsOwnership(b: Broker, cmd: Cmd)
    requires PushersOwned(b)
    ensures PushersOwned(Exec(b, cmd).state)
  {
    hide PushersOwned, DropPusher, NotifyPeers, Deliver, Fanout, ReapEach;
    var c := Exec(b, cmd).state;
    match cmd
    case Register(now, id, path) =>
      var s := Session(id, path, now, now);
      var entry := Entry(s, [], Full(b.cfg.broadcastBurst, b.cfg.broadcastRefill, now));
      SessionsDoNotOwn(b, b.sessions[id := entry], b.histories, now);
      NotifyPeersKeeps(b.(sessions := b.sessions[id := entry], clock := now), id, PeerJoined(s));
    case Unregister(id) => RemoveSessionKeeps(b, id);
    case Send(msg, id, at, tripAt) =>
      var m := Stamped(b.cfg, msg, id, at);
      SessionsDoNotOwn(b, b.sessions, b.histories, at);
      DeliverKeeps(b.(clock := at), m.to, MessageEvent(m));
      if m.to in b.sessions {
        var histories := Breaker(b.cfg, b.histories, m, tripAt);
        var b1 := WithInbox(b, m.to, m).(histories := histories, clock := tripAt);
        SessionsDoNotOwn(b, b1.sessions, histories, tripAt);
        DeliverKeeps(b1, m.to, MessageEvent(m));
      }
    case Broadcast(now, from, content, order, stamps, end) =>
      var b1 := WithBucketFor(b, from, now);
      var e := b1.sessions[from];
      var b2 := b1.(sessions := b1.sessions[from := e.(bucket := AfterTake(e.bucket, now))], clock := now);
      SessionsDoNotOwn(b, b2.sessions, b.histories, now);
      FanoutKeeps(b2, from, content, order, stamps);
      var b3 := Fanout(b2, from, content, order, stamps);
      SessionsDoNotOwn(b3, b3.sessions, b3.histories, end);
    case Subscribe(id) => SubscribeKeeps(b, id);
    case Cancel(id, pid) => DropPusherKeeps(b, id);
    case Reap(now, order) =>
      SessionsDoNotOwn(b, b.sessions, b.histories, now);
      ReapEachKeeps(b.(clock := now), now, order);
      var b1 := ReapEach(b.(clock := now), now, order);
      SessionsDoNotOwn(b1, Expire(b1.sessions, now), b1.histories, b1.clock);
    case Touch(now, id) => SessionsDoNotOwn(b, c.sessions, b.histories, now);
    case ListPeers(now, id) => SessionsDoNotOwn(b, b.sessions, b.histories, now);
    case Poll(id) => SessionsDoNotOwn(b, c.sessions, b.histories, b.clock);
    case Lookup(id) =>
  }

  lemma PushKeepsOwnership(b: Broker, pid: nat, step: Step)
    requires PushersOwned(b)
    ensures PushersOwned(Next(b, Push(pid, step)))
  {
    if pid < |b.pool| && Enabled(b.pool[pid], step) {
      StepIsSound(b.pool[pid], step, b.cfg.maxInboxSize);
      hide Sound, After, Enabled;
      PoolRefreshed(b, b.pool[pid := After(b.pool[pid], step)]);
    }
  }

  lemma StepIsSound(p: PusherState, step: Step, cap: int)
    requires Sound(p, cap) && Enabled(p, step)
    ensures Sound(After(p, step), cap)
    ensures After(p, step).owner == p.owner && After(p, step).stops == p.stops && After(p, step).handed == p.handed
  {
    hide Accounted, LossesEarned, Pushers.Owned;
    StepKeepsAccount(p, step);
    StepKeepsLosses(p, step);
    StepKeepsOwnership(p, step);
  }

  // ---- Inbox bounds ----------------------------------------------------------------

  // Only these pieces touch sessions.
  lemma SideEffectsLeaveSessions(b: Broker, id: Id, ev: Event)
    ensures var c := Deliver(b, id, ev); c == b.(pool := c.pool) && |c.pool| == |b.pool|
    ensures var c := NotifyPeers(b, id, ev); c == b.(pool := c.pool) && |c.pool| == |b.pool|
    ensures var c := DropPusher(b, id); c == b.(pool := c.pool, pushers := c.pushers) && |c.pool| == |b.pool|
    ensures var c := RemoveSession(b, id);
            c == b.(pool := c.pool, pushers := c.pushers, sessions := b.sessions - {id}) && |c.pool| == |b.pool|
  {
  }

  lemma {:induction false} FanoutKeepsBounds(b: Broker, from: Id, content: string, order: seq<Id>, stamps: map<Id, Stamp>)
    requires InboxesBounded(b)
    ensures var c := Fanout(b, from, content, order, stamps); InboxesBounded(c) && c.cfg == b.cfg
  {
    if order != [] {
      var n := |order| - 1;
      FanoutKeepsBounds(b, from, content, order[..n], stamps);
    }
  }

  lemma {:induction false} ReapEachShrinks(b: Broker, now: Time, order: seq<Id>)
    ensures var c := ReapEach(b, now, order);
            && c.cfg == b.cfg && c.clock == b.clock && c.histories == b.histories
            && (forall id :: id in c.sessions ==> id in b.sessions && c.sessions[id] == b.sessions[id])
  {
    if order != [] { ReapEachShrinks(b, now, order[..|order| - 1]); }
  }

  lemma SendKeepsBounds(b: Broker, msg: Message, id: Id, at: Time, tripAt: Time)
    requires InboxesBounded(b)
    ensures var c := DoSend(b, msg, id, at, tripAt).state; InboxesBounded(c) && c.cfg == b.cfg
  {
    hide Deliver, Enqueued, Suppressed, Breaker;
    var m := Stamped(b.cfg, msg, id, at);
    SideEffectsLeaveSessions(b.(clock := at), m.to, MessageEvent(m));
    if m.to in b.sessions {
      var b1 := WithInbox(b, m.to, m).(histories := Breaker(b.cfg, b.histories, m, tripAt), clock := tripAt);
      SideEffectsLeaveSessions(b1, m.to, MessageEvent(m));
    }
  }

  lemma BroadcastKeepsBounds(b: Broker, now: Time, from: Id, content: string, order: seq<Id>, stamps: map<Id, Stamp>, end: Time)
    requires InboxesBounded(b)
    ensures var c := DoBroadcast(b, now, from, content, order, stamps, end).state; InboxesBounded(c) && c.cfg == b.cfg
  {
    hide Fanout, AfterTake, Grants;
    var b1 := WithBucketFor(b, from, now);
    var e := b1.sessions[from];
    FanoutKeepsBounds(b1.(sessions := b1.sessions[from := e.(bucket := AfterTake(e.bucket, now))], clock := now),
                      from, content, order, stamps);
  }

  lemma ExecKeepsBounds(b: Broker, cmd: Cmd)
    requires InboxesBounded(b)
    ensures InboxesBounded(Exec(b, cmd).state) && Exec(b, cmd).state.cfg == b.cfg
  {
    hide Deliver, DropPusher, NotifyPeers, ReapEach, RemoveSession, DoSend, DoBroadcast;
    match cmd
    case Register(now, id, path) =>
      var s := Session(id, path, now, now);
      var entry := Entry(s, [], Full(b.cfg.broadcastBurst, b.cfg.broadcastRefill, now));
      SideEffectsLeaveSessions(b.(sessions := b.sessions[id := entry], clock := now), id, PeerJoined(s));
    case Unregister(id) => SideEffectsLeaveSessions(b, id, PeerLeft(id));
    case Send(msg, id, at, tripAt) => SendKeepsBounds(b, msg, id, at, tripAt);
    case Broadcast(now, from, content, order, stamps, end) =>
      BroadcastKeepsBounds(b, now, from, content, order, stamps, end);
    case Subscribe(id) => SideEffectsLeaveSessions(b, id, PeerLeft(id));
    case Cancel(id, _) => SideEffectsLeaveSessions(b, id, PeerLeft(id));
    case Reap(now, order) => ReapEachShrinks(b.(clock := now), now, order);
    case _ =>
  }

  // ---- Every run ---------------------------------------------------------------------

  lemma InitInvariant(cfg: Settings, now: Time)
    ensures Invariant(Init(cfg, now))
  {
  }

  lemma NextKeepsInvariant(b: Broker, a: Action)
    requires Invariant(b)
    ensures Invariant(Next(b, a)) && Next(b, a).cfg == b.cfg
  {
    match a
    case Do(cmd) =>
      ExecKeepsOwnership(b, cmd);
      ExecKeepsBounds(b, cmd);
    case Push(pid, step) => PushKeepsOwnership(b, pid, step);
  }

  lemma {:induction false} RunKeepsInvariant(b: Broker, acts: seq<Action>)
    requires Invariant(b)
    ensures Invariant(Run(b, acts)) && Run(b, acts).cfg == b.cfg
  {
    if acts != [] {
      RunKeepsInvariant(b, acts[..|acts| - 1]);
      NextKeepsInvariant(Run(b, acts[..|acts| - 1]), acts[|acts| - 1]);
    }
  }

  // Whatever happens, no pusher sends on or closes a closed channel, no stop signal
  // is lost, and what a subscriber gets is in hand-over order.
  lemma PushersAreSafe(cfg: Settings, now: Time, acts: seq<Action>, pid: nat)
    requires pid < |Run(Init(cfg, now), acts).pool|
    ensures var b := Run(Init(cfg, now), acts); var p := b.pool[pid];
            && !p.panicked && p.stops <= 1
            && (p.stops == 0 <==> Active(b, pid))
            && (p.stops == 1 <==> p.stop || p.phase.Exited?)
            && Ledgers.Subsequence(p.received + p.out, p.handed)
  {
    InitInvariant(cfg, now);
    RunKeepsInvariant(Init(cfg, now), acts);
    DeliveryIsFifo(Run(Init(cfg, now), acts).pool[pid]);
  }

  import Ledgers

  // A cancel that kept its pusher's identity never touches a newer subscription.
  lemma StaleCancelIsHarmless(b: Broker, id: Id, pid: nat)
    requires PushersOwned(b) && pid < |b.pool| && !Active(b, pid)
    ensures Exec(b, Cancel(id, pid)).state == b
  {
  }

  // No event is handed to a pusher that has been told to stop.
  lemma StoppedPusherGetsNothing(b: Broker, a: Action, pid: nat)
    requires PushersOwned(b) && pid < |b.pool| && b.pool[pid].stops > 0
    ensures var c := Next(b, a);
            pid < |c.pool| && c.pool[pid].handed == b.pool[pid].handed && c.pool[pid].stops == b.pool[pid].stops
  {
    match a
    case Push(i, step) =>
      if i == pid && Enabled(b.pool[pid], step) { StepIsSound(b.pool[pid], step, b.cfg.maxInboxSize); }
      hide Enabled, After, Sound;
    case Do(cmd) =>
      assert !Active(b, pid);
      StoppedDuring(b, cmd, pid);
  }

  // The pieces of the loop leave an inactive pusher alone.
  ghost predicate Untouched(b: Broker, c: Broker, pid: nat) {
    |b.pool| <= |c.pool| && pid < |b.pool| && c.pool[pid] == b.pool[pid] && !Active(c, pid)
  }

  lemma PiecesUntouched(b: Broker, id: Id, ev: Event, pid: nat)
    requires PushersOwned(b) && pid < |b.pool| && !Active(b, pid)
    ensures Untouched(b, Deliver(b, id, ev), pid)
    ensures Untouched(b, NotifyPeers(b, id, ev), pid)
    ensures Untouched(b, DropPusher(b, id), pid)
  {
    hide Sound;
  }

  lemma RemoveUntouched(b: Broker, id: Id, pid: nat)
    requires PushersOwned(b) && pid < |b.pool| && !Active(b, pid)
    ensures Untouched(b, RemoveSession(b, id), pid)
  {
    var b1 := b.(sessions := b.sessions - {id});
    SessionsDoNotOwn(b, b1.sessions, b1.histories, b1.clock);
    assert !Active(b1, pid);
    hide PushersOwned, DropPusher, NotifyPeers;
    PiecesUntouched(b1, id, PeerLeft(id), pid);
    DropPusherKeeps(b1, id);
    PiecesUntouched(DropPusher(b1, id), id, PeerLeft(id), pid);
  }

  lemma StoppedDuring(b: Broker, cmd: Cmd, pid: nat)
    requires PushersOwned(b) && pid < |b.pool| && !Active(b, pid)
    ensures Untouched(b, Exec(b, cmd).state, pid)
  {
    hide PushersOwned, DropPusher, NotifyPeers, Deliver, Fanout, ReapEach, RemoveSession;
    match cmd
    case Register(now, id, path) =>
      var s := Session(id, path, now, now);
      var entry := Entry(s, [], Full(b.cfg.broadcastBurst, b.cfg.broadcastRefill, now));
      SessionsDoNotOwn(b, b.sessions[id := entry], b.histories, now);
      PiecesUntouched(b.(sessions := b.sessions[id := entry], clock := now), id, PeerJoined(s), pid);
    case Unregister(id) => RemoveUntouched(b, id, pid);
    case Send(msg, id, at, tripAt) => SendUntouched(b, msg, id, at, tripAt, pid);
    case Broadcast(now, from, content, order, stamps, end) =>
      var b1 := WithBucketFor(b, from, now);
      var e := b1.sessions[from];
      var b2 := b1.(sessions := b1.sessions[from := e.(bucket := AfterTake(e.bucket, now))], clock := now);
      SessionsDoNotOwn(b, b2.sessions, b.histories, now);
      FanoutUntouched(b2, from, content, order, stamps, pid);
    case Subscribe(id) =>
      SubscribeUntouched(b, id, pid);
    case Cancel(id, _) => PiecesUntouched(b, id, PeerLeft(id), pid);
    case Reap(now, order) =>
      SessionsDoNotOwn(b, b.sessions, b.histories, now);
      ReapUntouched(b.(clock := now), now, order, pid);
    case _ =>
  }

  lemma SendUntouched(b: Broker, msg: Message, id: Id, at: Time, tripAt: Time, pid: nat)
    requires PushersOwned(b) && pid < |b.pool| && !Active(b, pid)
    ensures Untouched(b, DoSend(b, msg, id, at, tripAt).state, pid)
  {
    hide PushersOwned, Deliver, Breaker, Suppressed;
    var m := Stamped(b.cfg, msg, id, at);
    SessionsDoNotOwn(b, b.sessions, b.histories, at);
    PiecesUntouched(b.(clock := at), m.to, MessageEvent(m), pid);
    if m.to in b.sessions {
      var histories := Breaker(b.cfg, b.histories, m, tripAt);
      var b1 := WithInbox(b, m.to, m).(histories := histories, clock := tripAt);
      SessionsDoNotOwn(b, b1.sessions, histories, tripAt);
      PiecesUntouched(b1, m.to, MessageEvent(m), pid);
    }
  }

  lemma SubscribeUntouched(b: Broker, id: Id, pid: nat)
    requires PushersOwned(b) && pid < |b.pool| && !Active(b, pid)
    ensures Untouched(b, DoSubscribe(b, id).state, pid)
  {
    PiecesUntouched(b, id, PeerLeft(id), pid);
    hide Sound, PushersOwned;
  }

  lemma {:induction false} FanoutUntouched(b: Broker, from: Id, content: string, order: seq<Id>, stamps: map<Id, Stamp>, pid: nat)
    requires PushersOwned(b) && pid < |b.pool| && !Active(b, pid)
    ensures Untouched(b, Fanout(b, from, content, order, stamps), pid)
  {
    hide PushersOwned, Deliver;
    if order != [] {
      var n := |order| - 1;
      FanoutUntouched(b, from, content, order[..n], stamps, pid);
      FanoutKeeps(b, from, content, order[..n], stamps);
      var c := Fanout(b, from, content, order[..n], stamps);
      if order[n] in c.sessions {
        var m := Copy(c.cfg, from, content, order[n], StampFor(stamps, order[n]));
        SessionsDoNotOwn(c, WithInbox(c, order[n], m).sessions, c.histories, c.clock);
        PiecesUntouched(WithInbox(c, order[n], m), order[n], MessageEvent(m), pid);
      }
    }
  }

  lemma {:induction false} ReapUntouched(b: Broker, now: Time, order: seq<Id>, pid: nat)
    requires PushersOwned(b) && pid < |b.pool| && !Active(b, pid)
    ensures Untouched(b, ReapEach(b, now, order), pid)
  {
    hide PushersOwned, RemoveSession;
    if order != [] {
      var n := |order| - 1;
      ReapUntouched(b, now, order[..n], pid);
      ReapEachKeeps(b, now, order[..n]);
      RemoveUntouched(ReapEach(b, now, order[..n]), order[n], pid);
    }
  }
}
