// What one command does, told in the fields of the messages, sessions and events that
// callers and subscribers get to see (internal/broker/broker.go).
module Observed {
  import opened Types
  import opened Inboxes
  import opened TokenBuckets
  import opened Livelock
  import opened Pushers
  import opened BrokerModel
  import opened Effects
  import opened Invariants
  import Confluence
  import Conservation
  import States

  // q has been handed nothing since p.
  predicate HeardNothing(p: PusherState, q: PusherState) { q.handed == p.handed }

  // q has been handed one event since p, and it is ev.
  predicate HeardOne(p: PusherState, q: PusherState, ev: Event) { q.handed == p.handed + [ev] }

  // ---- Send ---------------------------------------------------------------------------

  // m is the message of a caller as the broker took it in: with the id and the time given
  // to it, and the configured time to live unless the caller chose one.
  predicate AsSent(m: Message, cfg: Settings, msg: Message, id: Id, at: Time) {
    && m.id == id && m.createdAt == at
    && m.from == msg.from && m.to == msg.to && m.content == msg.content
    && m.inReplyTo == msg.inReplyTo && m.expectsReply == msg.expectsReply
    && m.kind == msg.kind && m.requestId == msg.requestId
    && m.ttl == if msg.ttl > 0 then msg.ttl else cfg.messageTTL
  }

  // An ordinary message for a registered session ends up last in its inbox; no other inbox
  // changes, and no inbox at all by a permission message or one that nobody gets.
  lemma SentIsStored(b: Broker, msg: Message, id: Id, at: Time, tripAt: Time)
    ensures var c := Exec(b, Send(msg, id, at, tripAt)).state;
            && c.sessions.Keys == b.sessions.Keys
            && forall i :: i in b.sessions ==>
                 var was, inbox := b.sessions[i].inbox, c.sessions[i].inbox;
                 if i == msg.to && msg.kind == KIND_MESSAGE then
                   && |inbox| > 0 && AsSent(inbox[|inbox| - 1], b.cfg, msg, id, at)
                   && inbox[..|inbox| - 1] == if |was| < b.cfg.maxInboxSize then was else was[1..]
                 else inbox == was
  {
    SendSessions(b, msg, id, at, tripAt);
    hide DoSend;
  }

  // The breaker holds a message back when the pair's history, this message included, trips.
  ghost predicate HeldBack(c: Broker, msg: Message) {
    && msg.kind == KIND_MESSAGE && c.cfg.livelockEnabled
    && Trips(HistoryOf(c.histories, PairKey(msg.from, msg.to)), c.cfg.livelockMaxChain, c.cfg.livelockResetIdle)
  }

  // The recipient's pusher, and no other, is handed the message, unless the recipient is not
  // registered or the breaker holds it back.
  lemma SentIsPushed(b: Broker, msg: Message, id: Id, at: Time, tripAt: Time, pid: nat)
    requires PushersOwned(b) && pid < |b.pool|
    ensures var c := Exec(b, Send(msg, id, at, tripAt)).state;
            && pid < |c.pool|
            && if Active(b, pid) && b.pool[pid].owner == msg.to && msg.to in b.sessions && !HeldBack(c, msg) then
                 exists m :: HeardOne(b.pool[pid], c.pool[pid], MessageEvent(m)) && AsSent(m, b.cfg, msg, id, at)
               else HeardNothing(b.pool[pid], c.pool[pid])
  {
    hide Sound, Trips, PairKey, NormalizeBody, Enqueued, Recorded;
    var m := Stamped(b.cfg, msg, id, at);
    assert AsSent(m, b.cfg, msg, id, at);
    if Active(b, pid) && b.pool[pid].owner == msg.to && msg.to in b.sessions {
      assert HeardOne(b.pool[pid], Hand(b.pool[pid], MessageEvent(m)), MessageEvent(m));
    }
  }

  // ---- Broadcast --------------------------------------------------------------------------

  // m is the copy of a broadcast that goes to one recipient: an ordinary message from the
  // sender, not part of any thread, with the id and the time given to this copy.
  predicate AsBroadcast(m: Message, cfg: Settings, from: Id, to: Id, content: string, st: Stamp) {
    && m.from == from && m.to == to && m.content == content
    && m.inReplyTo == "" && !m.expectsReply && m.kind == "" && m.requestId == ""
    && m.id == st.id && m.createdAt == st.at && m.ttl == cfg.messageTTL
  }

  // The inbox of session i after a broadcast.
  ghost predicate MailAfter(b: Broker, cmd: Cmd, granted: bool, i: Id, inbox: seq<Message>)
    requires cmd.Broadcast? && i in b.sessions
  {
    var was := b.sessions[i].inbox;
    if i != cmd.id && granted then
      && i in cmd.stamps && |inbox| > 0 && AsBroadcast(inbox[|inbox| - 1], b.cfg, cmd.id, i, cmd.content, cmd.stamps[i])
      && inbox[..|inbox| - 1] == if |was| < b.cfg.maxInboxSize then was else was[1..]
    else inbox == was
  }

  // A granted broadcast leaves its copy last in every other inbox; a refused one leaves all
  // inboxes alone; the sender's own never changes.
  lemma BroadcastIsStored(b: Broker, cmd: Cmd)
    requires cmd.Broadcast? && Admissible(b, cmd)
    ensures var r := Exec(b, cmd);
            && (r.reply.Fanned? || r.reply.RateLimited?)
            && r.state.sessions.Keys == b.sessions.Keys + {cmd.id}
            && (cmd.id !in b.sessions ==> r.state.sessions[cmd.id].inbox == [])
            && forall i :: i in b.sessions ==> MailAfter(b, cmd, r.reply.Fanned?, i, r.state.sessions[i].inbox)
  {
    hide DoBroadcast, Charged, HasToken, AfterFan, MailAfter;
    BroadcastEffect(b, cmd.now, cmd.id, cmd.content, cmd.order, cmd.stamps, cmd.end);
    ChargedKeys(b, cmd.id, cmd.now);
    ChargedMail(b, cmd.id, cmd.now);
    SenderGetsNone(Charged(b, cmd.id, cmd.now), cmd.id, cmd.content, cmd.order, cmd.stamps);
    var r := Exec(b, cmd);
    forall i | i in b.sessions ensures MailAfter(b, cmd, r.reply.Fanned?, i, r.state.sessions[i].inbox) {
      FannedMail(b, cmd, i);
    }
  }

  lemma SenderGetsNone(b: Broker, from: Id, content: string, order: seq<Id>, stamps: map<Id, Stamp>)
    requires from in b.sessions
    ensures AfterFan(b, from, content, order, stamps, from) == b.sessions[from]
  {
  }

  lemma FannedMail(b: Broker, cmd: Cmd, i: Id)
    requires cmd.Broadcast? && Admissible(b, cmd) && i in b.sessions
    ensures var d := Charged(b, cmd.id, cmd.now);
            && i in d.sessions
            && MailAfter(b, cmd, true, i, AfterFan(d, cmd.id, cmd.content, cmd.order, cmd.stamps, i).inbox)
            && MailAfter(b, cmd, false, i, d.sessions[i].inbox)
  {
    hide Charged, Copy, Enqueued, AsBroadcast;
    ChargedKeys(b, cmd.id, cmd.now);
    ChargedMail(b, cmd.id, cmd.now);
    if i != cmd.id {
      assert i in cmd.order && i in cmd.stamps;
      CopyIsAsBroadcast(b.cfg, cmd.id, i, cmd.content, cmd.stamps[i]);
      NewestIsLast(b.sessions[i].inbox, Copy(b.cfg, cmd.id, cmd.content, i, cmd.stamps[i]), b.cfg.maxInboxSize);
    }
  }

  lemma CopyIsAsBroadcast(cfg: Settings, from: Id, to: Id, content: string, st: Stamp)
    ensures AsBroadcast(Copy(cfg, from, content, to, st), cfg, from, to, content, st)
  {
  }

  lemma NewestIsLast(was: seq<Message>, m: Message, max: int)
    requires max > 0
    ensures var inbox := Enqueued(was, m, max);
            |inbox| > 0 && inbox[|inbox| - 1] == m && inbox[..|inbox| - 1] == if |was| < max then was else was[1..]
  {
  }

  lemma ChargedMail(b: Broker, from: Id, now: Time)
    ensures Charged(b, from, now).sessions[from].inbox == if from in b.sessions then b.sessions[from].inbox else []
  {
    hide AfterTake;
  }

  // The active pusher of every other session is handed that session's copy.
  lemma BroadcastIsPushed(b: Broker, cmd: Cmd, pid: nat)
    requires cmd.Broadcast? && Admissible(b, cmd) && PushersOwned(b) && pid < |b.pool| && Active(b, pid)
    ensures var r := Exec(b, cmd); var to := b.pool[pid].owner;
            && pid < |r.state.pool|
            && if r.reply.Fanned? && to != cmd.id && to in b.sessions then
                 && to in cmd.stamps
                 && exists m :: HeardOne(b.pool[pid], r.state.pool[pid], MessageEvent(m))
                                && AsBroadcast(m, b.cfg, cmd.id, to, cmd.content, cmd.stamps[to])
               else HeardNothing(b.pool[pid], r.state.pool[pid])
  {
    hide PushersOwned, Charged, Fanout, DoBroadcast, HasToken, Copy, AsBroadcast;
    var d, to := Charged(b, cmd.id, cmd.now), b.pool[pid].owner;
    ChargedKeys(b, cmd.id, cmd.now);
    SessionsDoNotOwn(b, d.sessions, b.histories, cmd.now);
    Confluence.FanoutHandsOneCopy(d, cmd.id, cmd.content, cmd.order, cmd.stamps, pid);
    BroadcastSplits(b, cmd);
    if to in b.sessions && to != cmd.id {
      assert to in cmd.order;
      CopyIsAsBroadcast(b.cfg, cmd.id, to, cmd.content, cmd.stamps[to]);
    }
  }

  lemma BroadcastSplits(b: Broker, cmd: Cmd)
    requires cmd.Broadcast?
    ensures var r := Exec(b, cmd); var d := Charged(b, cmd.id, cmd.now);
            && (r.reply.Fanned? <==> HasToken(b, cmd.id, cmd.now))
            && r.state.pool == if HasToken(b, cmd.id, cmd.now) then Fanout(d, cmd.id, cmd.content, cmd.order, cmd.stamps).pool else d.pool
  {
    hide Fanout, AfterTake, Grants;
  }

  // ---- Sessions come and go -----------------------------------------------------------------

  // The active pusher of a session other than id.
  ghost predicate Listens(b: Broker, pid: nat, id: Id)
    requires pid < |b.pool|
  {
    Active(b, pid) && b.pool[pid].owner != id
  }

  lemma NotifiedOnce(b: Broker, id: Id, ev: Event, pid: nat)
    requires PushersOwned(b) && pid < |b.pool|
    ensures var c := NotifyPeers(b, id, ev);
            pid < |c.pool| && if Listens(b, pid, id) then HeardOne(b.pool[pid], c.pool[pid], ev) else c.pool[pid] == b.pool[pid]
  {
    hide Sound;
    if Listens(b, pid, id) { assert ListensAs(b.pushers, id, pid); }
  }

  // A registration answers with the new session, which has an empty inbox, and announces it
  // once on every other session's subscription.
  lemma RegisteredIsAnnounced(b: Broker, now: Time, id: Id, path: string, pid: nat)
    requires PushersOwned(b) && Admissible(b, Register(now, id, path))
    ensures var r := Exec(b, Register(now, id, path));
            && r.reply == Registered(Session(id, path, now, now))
            && r.state.sessions.Keys == b.sessions.Keys + {id}
            && r.state.sessions[id].session == Session(id, path, now, now) && r.state.sessions[id].inbox == []
            && (forall i :: i in b.sessions ==> r.state.sessions[i] == b.sessions[i])
            && r.state.pushers == b.pushers
    ensures var c := Exec(b, Register(now, id, path)).state;
            pid < |b.pool| ==>
              && pid < |c.pool|
              && if Listens(b, pid, id) then HeardOne(b.pool[pid], c.pool[pid], PeerJoined(Session(id, path, now, now)))
                 else c.pool[pid] == b.pool[pid]
  {
    var s := Session(id, path, now, now);
    var sessions := b.sessions[id := Entry(s, [], Full(b.cfg.broadcastBurst, b.cfg.broadcastRefill, now))];
    SessionsDoNotOwn(b, sessions, b.histories, now);
    if pid < |b.pool| { NotifiedOnce(b.(sessions := sessions, clock := now), id, PeerJoined(s), pid); }
    hide PushersOwned;
  }

  // Unregistering a session stops its subscription and announces its leaving once on every
  // other one; an unknown id has no effect.
  lemma UnregisteredIsAnnounced(b: Broker, id: Id, pid: nat)
    requires PushersOwned(b)
    ensures var c := Exec(b, Unregister(id)).state;
            && c.sessions == b.sessions - {id}
            && c.pushers == (if id in b.sessions then b.pushers - {id} else b.pushers)
    ensures var c := Exec(b, Unregister(id)).state;
            pid < |b.pool| ==>
              && pid < |c.pool|
              && if id !in b.sessions then c.pool[pid] == b.pool[pid]
                 else if Listens(b, pid, id) then HeardOne(b.pool[pid], c.pool[pid], PeerLeft(id))
                 else HeardNothing(b.pool[pid], c.pool[pid]) && c.pool[pid].stops == 1
  {
    RemoveSessionEffect(b, id);
    if id in b.sessions {
      if pid < |b.pool| { RemovedIsHeard(b, id, pid); }
    } else {
      assert b.sessions - {id} == b.sessions;
    }
    hide RemoveSession, PushersOwned;
  }

  lemma RemovedIsHeard(b: Broker, id: Id, pid: nat)
    requires PushersOwned(b) && pid < |b.pool|
    ensures var c := RemoveSession(b, id);
            && pid < |c.pool|
            && if Listens(b, pid, id) then HeardOne(b.pool[pid], c.pool[pid], PeerLeft(id))
               else HeardNothing(b.pool[pid], c.pool[pid]) && c.pool[pid].stops == 1
  {
    var b1 := b.(sessions := b.sessions - {id});
    var d := DropPusher(b1, id);
    SessionsDoNotOwn(b, b1.sessions, b.histories, b.clock);
    DropPusherKeeps(b1, id);
    NotifiedOnce(d, id, PeerLeft(id), pid);
    SubscriptionDropped(b1, id, pid);
    hide PushersOwned, NotifyPeers, DropPusher;
  }

  // Dropping the pusher of id signals that one pusher, and leaves all others as they were.
  lemma SubscriptionDropped(b: Broker, id: Id, pid: nat)
    requires PushersOwned(b) && pid < |b.pool|
    ensures var d := DropPusher(b, id);
            && pid < |d.pool| && d.pushers == b.pushers - {id}
            && d.pool[pid].owner == b.pool[pid].owner && HeardNothing(b.pool[pid], d.pool[pid])
            && (Active(d, pid) <==> Active(b, pid) && b.pool[pid].owner != id)
            && (b.pool[pid].owner != id || !Active(b, pid) ==> d.pool[pid] == b.pool[pid])
            && d.pool[pid].stops == (if Active(d, pid) then 0 else 1)
  {
    hide PushersOwned;
    DropPusherKeeps(b, id);
    OwnedAt(b, pid);
    DroppedOne(b, id, pid);
    hide DropPusher;
    OwnedAt(DropPusher(b, id), pid);
  }

  lemma DroppedOne(b: Broker, id: Id, pid: nat)
    requires pid < |b.pool| && forall i :: i in b.pushers ==> b.pushers[i] < |b.pool| && b.pool[b.pushers[i]].owner == i
    ensures var d := DropPusher(b, id);
            && |d.pool| == |b.pool| && d.pushers == b.pushers - {id}
            && d.pool[pid].owner == b.pool[pid].owner && HeardNothing(b.pool[pid], d.pool[pid])
            && (b.pool[pid].owner != id || !Active(b, pid) ==> d.pool[pid] == b.pool[pid])
  {
    if id !in b.pushers { assert b.pushers - {id} == b.pushers; }
  }

  lemma OwnedAt(b: Broker, pid: nat)
    requires PushersOwned(b) && pid < |b.pool|
    ensures b.pool[pid].stops == (if Active(b, pid) then 0 else 1)
    ensures forall id :: id in b.pushers ==> b.pushers[id] < |b.pool| && b.pool[b.pushers[id]].owner == id
  {
    hide Sound, Active;
  }

  // A subscription gets a pusher of its own, which has been handed nothing; the one before
  // it, if any, is told to stop, and nothing else changes.
  lemma SubscribedAnew(b: Broker, id: Id, pid: nat)
    requires PushersOwned(b) && pid < |b.pool|
    ensures var r := Exec(b, Subscribe(id)); var c := r.state;
            && r.reply == Subscribed(|b.pool|) && |c.pool| == |b.pool| + 1
            && c == b.(pool := c.pool, pushers := b.pushers[id := |b.pool|])
            && c.pool[|b.pool|].owner == id && c.pool[|b.pool|].cap == b.cfg.maxInboxSize
            && c.pool[|b.pool|].handed == [] && c.pool[|b.pool|].stops == 0 && !c.pool[|b.pool|].closed
            && HeardNothing(b.pool[pid], c.pool[pid])
            && if Active(b, pid) && b.pool[pid].owner == id then c.pool[pid].stop && c.pool[pid].stops == 1
               else c.pool[pid] == b.pool[pid]
  {
    OwnedAt(b, pid);
    hide PushersOwned, Exec;
    States.SubscribeSteps(b, id);
  }

  // Cancelling the active subscription of a session ends it and nothing else; any other
  // cancel has no effect.
  lemma CancelEndsItsOwn(b: Broker, id: Id, mine: nat, pid: nat)
    requires PushersOwned(b) && pid < |b.pool|
    ensures var c := Exec(b, Cancel(id, mine)).state;
            && |c.pool| == |b.pool| && c == b.(pool := c.pool, pushers := c.pushers)
            && c.pushers == (if id in b.pushers && b.pushers[id] == mine then b.pushers - {id} else b.pushers)
            && if id in b.pushers && b.pushers[id] == mine && pid == mine then
                 c.pool[pid].stop && c.pool[pid].stops == 1 && HeardNothing(b.pool[pid], c.pool[pid])
               else c.pool[pid] == b.pool[pid]
  {
    hide Sound;
    if id in b.pushers && b.pushers[id] == mine { assert Active(b, mine); }
  }

  // No other command hands any pusher anything, or signals one.
  lemma OthersAreSilent(b: Broker, cmd: Cmd)
    requires cmd.Touch? || cmd.ListPeers? || cmd.Lookup? || cmd.Poll?
    ensures Exec(b, cmd).state.pool == b.pool && Exec(b, cmd).state.pushers == b.pushers
  {
  }

  // ---- Queries -----------------------------------------------------------------------------

  // A listing holds every other session that was heard of within the session TTL, as it is
  // stored, and nothing else.
  lemma ListedAreTheOthers(b: Broker, now: Time, caller: Id)
    ensures var r := Exec(b, ListPeers(now, caller)).reply;
            && r.Peers?
            && (forall k :: k in r.peers <==>
                  k in b.sessions && k != caller && now - b.sessions[k].session.lastSeen <= b.cfg.sessionTTL)
            && forall k :: k in r.peers ==> r.peers[k] == b.sessions[k].session
  {
  }

  // A lookup finds every session that is there, stale or not, as it is stored.
  lemma LookupFindsTheStale(b: Broker, id: Id)
    ensures var r := Exec(b, Lookup(id)).reply;
            && r.Found? && (r.found.Some? <==> id in b.sessions)
            && (r.found.Some? ==> r.found.value == b.sessions[id].session)
    ensures Exec(b, Lookup(id)).state == b
  {
  }

  // ---- What a reap expires ---------------------------------------------------------------------

  // Of a session that survives, a reap drops exactly the messages older than their TTL.
  lemma ReapDropsTheOld(b: Broker, now: Time, order: seq<Id>, id: Id, m: Message)
    requires IsOrder(order, b.sessions.Keys)
    ensures var c := Exec(b, Reap(now, order)).state;
            && (id in c.sessions <==> id in b.sessions && now - b.sessions[id].session.lastSeen <= b.cfg.sessionTTL)
            && (id in c.sessions ==> (m in c.sessions[id].inbox <==> m in b.sessions[id].inbox && now - m.createdAt <= m.ttl))
  {
    ReapEffect(b, now, order);
    if id in b.sessions { FilterMembers(b.sessions[id].inbox, Live(now), m); }
    hide Exec, Filter;
  }

  // ---- What a session's record says, over runs ---------------------------------------------------

  // The record of an entry as the actions tell it: a registration makes it, a touch renews
  // it, and the first broadcast of an unknown sender makes a blank one.
  ghost function AsHeard(b: Broker, acts: seq<Action>, id: Id): Session {
    if acts == [] then Session("", "", ZERO_TIME, ZERO_TIME)
    else
      var n := |acts| - 1;
      var before := AsHeard(b, acts[..n], id);
      match acts[n]
      case Do(Register(now, i, path)) => if i == id then Session(id, path, now, now) else before
      case Do(Touch(now, i)) => if i == id then before.(lastSeen := now) else before
      case _ => if id in Run(b, acts[..n]).sessions then before else Session("", "", ZERO_TIME, ZERO_TIME)
  }

  lemma RecordStep(b: Broker, a: Action, id: Id)
    requires Possible(b, a) && id in Next(b, a).sessions
    ensures var s := Next(b, a).sessions[id].session;
            match a
            case Do(Register(now, i, path)) =>
              if i == id then s == Session(id, path, now, now) else id in b.sessions && s == b.sessions[id].session
            case Do(Touch(now, i)) =>
              id in b.sessions && s == if i == id then b.sessions[id].session.(lastSeen := now) else b.sessions[id].session
            case _ => s == if id in b.sessions then b.sessions[id].session else Session("", "", ZERO_TIME, ZERO_TIME)
  {
    if a.Do? {
      EntryAfterIsRight(b, a.cmd, id);
      if a.cmd.Broadcast? {
        ChargedKeys(b, a.cmd.id, a.cmd.now);
        ChargedRecord(b, a.cmd.id, a.cmd.now);
        hide Charged, HasToken;
      }
      hide Exec, Enqueued, Unexpired;
    }
  }

  lemma ChargedRecord(b: Broker, from: Id, now: Time)
    ensures Charged(b, from, now).sessions[from].session ==
            if from in b.sessions then b.sessions[from].session else Session("", "", ZERO_TIME, ZERO_TIME)
  {
    hide AfterTake;
  }

  // In every run a session's record is what was heard of it.
  lemma {:induction false} RecordIsAsHeard(cfg: Settings, start: Time, acts: seq<Action>, id: Id)
    requires BrokerModel.IsRun(Init(cfg, start), acts) && id in Run(Init(cfg, start), acts).sessions
    ensures Run(Init(cfg, start), acts).sessions[id].session == AsHeard(Init(cfg, start), acts, id)
  {
    var b := Init(cfg, start);
    hide Next, Possible;
    if acts != [] {
      var n := |acts| - 1;
      RecordStep(Run(b, acts[..n]), acts[n], id);
      if id in Run(b, acts[..n]).sessions { RecordIsAsHeard(cfg, start, acts[..n], id); }
    }
  }

  predicate Hears(a: Action, id: Id) { a.Do? && (a.cmd.Register? || a.cmd.Touch?) && a.cmd.id == id }

  // Action k was the last word of session id, which has been there ever since.
  ghost predicate LastHeard(b: Broker, acts: seq<Action>, id: Id, k: nat) {
    && k < |acts| && Hears(acts[k], id)
    && (forall j :: k < j < |acts| ==> !Hears(acts[j], id))
    && forall j :: k < j <= |acts| ==> id in Run(b, acts[..j]).sessions
  }

  lemma {:induction false} LastHeardCounts(b: Broker, acts: seq<Action>, id: Id, k: nat)
    requires LastHeard(b, acts, id, k)
    ensures AsHeard(b, acts, id).lastSeen == acts[k].cmd.now
    decreases |acts|
  {
    hide Run;
    var n := |acts| - 1;
    if k < n {
      forall j | k < j <= n ensures id in Run(b, acts[..n][..j]).sessions { assert acts[..n][..j] == acts[..j]; }
      assert acts[..n][k] == acts[k];
      LastHeardCounts(b, acts[..n], id, k);
    }
  }

  // After any run, a reap spares a session exactly if its latest registration or touch lies
  // no longer back than the session TTL.
  lemma ReapSparesTheHeard(cfg: Settings, start: Time, acts: seq<Action>, id: Id, k: nat, now: Time, order: seq<Id>)
    requires BrokerModel.IsRun(Init(cfg, start), acts) && LastHeard(Init(cfg, start), acts, id, k)
    requires Admissible(Run(Init(cfg, start), acts), Reap(now, order))
    ensures id in Exec(Run(Init(cfg, start), acts), Reap(now, order)).state.sessions <==> now - acts[k].cmd.now <= cfg.sessionTTL
  {
    var b := Init(cfg, start);
    assert acts[..|acts|] == acts;
    RecordIsAsHeard(cfg, start, acts, id);
    LastHeardCounts(b, acts, id, k);
    RunKeepsConfig(b, acts);
    ReapDropsTheOld(Run(b, acts), now, order, id, Message("", "", "", "", 0, 0, "", false, "", ""));
    hide Exec, Run, AsHeard, LastHeard, BrokerModel.IsRun;
  }

  lemma RunKeepsConfig(b: Broker, acts: seq<Action>)
    ensures Run(b, acts).cfg == b.cfg
  {
    Conservation.EvictedByOverflow(b, acts, "");
  }

  // Since it was last away, at action k, nobody has registered or touched session id.
  ghost predicate Unheard(b: Broker, acts: seq<Action>, id: Id, k: nat) {
    k <= |acts| && id !in Run(b, acts[..k]).sessions && forall j :: k <= j < |acts| ==> !Hears(acts[j], id)
  }

  lemma {:induction false} UnheardIsBlank(b: Broker, acts: seq<Action>, id: Id, k: nat)
    requires BrokerModel.IsRun(b, acts) && Unheard(b, acts, id, k) && id in Run(b, acts).sessions
    ensures AsHeard(b, acts, id) == Session("", "", ZERO_TIME, ZERO_TIME)
    decreases |acts|
  {
    hide Next, Possible;
    assert acts[..|acts|] == acts;
    var n := |acts| - 1;
    assert acts[..n][..k] == acts[..k];
    RecordStep(Run(b, acts[..n]), acts[n], id);
    if id in Run(b, acts[..n]).sessions { UnheardIsBlank(b, acts[..n], id, k); }
  }

  // An entry that only holds an unknown sender's bucket was never heard of: a reap spares it
  // only while the TTL reaches back to the zero instant.
  lemma ReapDropsTheUnheard(cfg: Settings, start: Time, acts: seq<Action>, id: Id, k: nat, now: Time, order: seq<Id>)
    requires BrokerModel.IsRun(Init(cfg, start), acts) && Unheard(Init(cfg, start), acts, id, k)
    requires id in Run(Init(cfg, start), acts).sessions && Admissible(Run(Init(cfg, start), acts), Reap(now, order))
    ensures id in Exec(Run(Init(cfg, start), acts), Reap(now, order)).state.sessions <==> now - ZERO_TIME <= cfg.sessionTTL
  {
    var b := Init(cfg, start);
    RecordIsAsHeard(cfg, start, acts, id);
    UnheardIsBlank(b, acts, id, k);
    RunKeepsConfig(b, acts);
    ReapDropsTheOld(Run(b, acts), now, order, id, Message("", "", "", "", 0, 0, "", false, "", ""));
    hide Exec, Run, AsHeard, BrokerModel.IsRun;
  }
}
