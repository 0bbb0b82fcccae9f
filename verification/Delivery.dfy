// What happens to an event between the loop and its subscriber: which events are turned
// away, and at which channel (internal/broker/pusher.go), and when a message reaches its
// recipient both by a push and by a poll (internal/broker/broker.go).
module Deliveries {
  import opened Types
  import opened Ledgers
  import opened Inboxes
  import opened TokenBuckets
  import opened Pushers
  import opened BrokerModel
  import opened Effects
  import opened Invariants
  import opened Independence
  import Conservation
  import Shells

  // ---- What a command hands to a pusher ---------------------------------------------------

  // The message ids that a command gives out.
  function IdsOf(cmd: Cmd): set<Id> {
    match cmd
    case Send(_, id, _, _) => {id}
    case Broadcast(_, _, _, _, stamps, _) => {""} + set k | k in stamps :: stamps[k].id
    case _ => {}
  }

  predicate Issued(ids: set<Id>, ev: Event) { ev.MessageEvent? ==> ev.msg.id in ids }

  // How full the mailbox is after n more hand-overs.
  function Filled(p: PusherState, n: nat): nat {
    if |p.mailbox| + n <= p.cap then |p.mailbox| + n else if |p.mailbox| <= p.cap then p.cap else |p.mailbox|
  }

  // q is p after some hand-overs: each event found room exactly if the mailbox, with those
  // before it, was not full.
  ghost predicate Taken(ids: set<Id>, p: PusherState, q: PusherState) {
    && q.owner == p.owner && q.cap == p.cap && q.received == p.received
    && |p.handed| <= |q.handed| && |q.fates| - |p.fates| == |q.handed| - |p.handed|
    && q.handed[..|p.handed|] == p.handed && q.fates[..|p.fates|] == p.fates
    && |q.mailbox| == Filled(p, |q.handed| - |p.handed|)
    && (forall i :: |p.fates| <= i < |q.fates| ==>
          q.fates[i] == if |p.mailbox| + (i - |p.fates|) < p.cap then Queued else LostAtMailbox)
    && (forall i :: |p.handed| <= i < |q.handed| ==> Issued(ids, q.handed[i]))
  }

  lemma TakenNothing(ids: set<Id>, p: PusherState, q: PusherState)
    requires q.owner == p.owner && q.cap == p.cap && q.received == p.received
    requires q.handed == p.handed && q.fates == p.fates && q.mailbox == p.mailbox
    ensures Taken(ids, p, q)
  {
  }

  lemma TakenOne(ids: set<Id>, p: PusherState, ev: Event)
    requires Issued(ids, ev)
    ensures Taken(ids, p, Hand(p, ev))
  {
  }

  lemma TakenMore(ids: set<Id>, p: PusherState, q: PusherState, r: PusherState)
    requires Taken(ids, p, q) && Taken(ids, q, r)
    ensures Taken(ids, p, r)
  {
    forall i | 0 <= i < |p.handed| ensures r.handed[i] == p.handed[i] { assert r.handed[i] == r.handed[..|q.handed|][i] == q.handed[..|p.handed|][i]; }
    forall i | 0 <= i < |p.fates| ensures r.fates[i] == p.fates[i] { assert r.fates[i] == r.fates[..|q.fates|][i] == q.fates[..|p.fates|][i]; }
    forall i | |p.handed| <= i < |r.handed| ensures Issued(ids, r.handed[i]) {
      if i < |q.handed| { assert r.handed[i] == r.handed[..|q.handed|][i] == q.handed[i]; }
    }
    forall i | |p.fates| <= i < |r.fates| ensures r.fates[i] == if |p.mailbox| + (i - |p.fates|) < p.cap then Queued else LostAtMailbox {
      if i < |q.fates| { assert r.fates[i] == r.fates[..|q.fates|][i] == q.fates[i]; }
    }
    hide Issued;
  }

  // c is b after part of a command.
  ghost predicate PoolTaken(ids: set<Id>, b: Broker, c: Broker) {
    |c.pool| == |b.pool| && forall pid: nat :: pid < |b.pool| ==> Taken(ids, b.pool[pid], c.pool[pid])
  }

  lemma PoolSame(ids: set<Id>, b: Broker, c: Broker)
    requires c.pool == b.pool
    ensures PoolTaken(ids, b, c)
  {
    forall pid: nat | pid < |b.pool| { TakenNothing(ids, b.pool[pid], b.pool[pid]); }
    hide Taken;
  }

  lemma PoolMore(ids: set<Id>, b: Broker, c: Broker, d: Broker)
    requires PoolTaken(ids, b, c) && PoolTaken(ids, c, d)
    ensures PoolTaken(ids, b, d)
  {
    hide Taken;
    forall pid: nat | pid < |b.pool| { TakenMore(ids, b.pool[pid], c.pool[pid], d.pool[pid]); }
  }

  lemma DeliverTakes(ids: set<Id>, b: Broker, id: Id, ev: Event)
    requires Issued(ids, ev)
    ensures PoolTaken(ids, b, Deliver(b, id, ev))
  {
    hide Taken, Hand, Issued;
    PoolSame(ids, b, b);
    if id in b.pushers && b.pushers[id] < |b.pool| { TakenOne(ids, b.pool[b.pushers[id]], ev); }
  }

  lemma NotifyTakes(ids: set<Id>, b: Broker, id: Id, ev: Event)
    requires !ev.MessageEvent?
    ensures PoolTaken(ids, b, NotifyPeers(b, id, ev))
  {
    hide Taken, Hand, ListensAs;
    PoolSame(ids, b, b);
    forall pid: nat | pid < |b.pool| { TakenOne(ids, b.pool[pid], ev); }
  }

  lemma DropTakes(ids: set<Id>, b: Broker, id: Id)
    ensures PoolTaken(ids, b, DropPusher(b, id))
  {
    PoolSame(ids, b, b);
    if id in b.pushers && b.pushers[id] < |b.pool| {
      TakenNothing(ids, b.pool[b.pushers[id]], Stopped(b.pool[b.pushers[id]]));
    }
    hide Taken, Stopped;
  }

  lemma RemoveTakes(ids: set<Id>, b: Broker, id: Id)
    ensures PoolTaken(ids, b, RemoveSession(b, id))
  {
    hide PoolTaken, DropPusher, NotifyPeers;
    var b1 := b.(sessions := b.sessions - {id});
    PoolSame(ids, b, b1);
    DropTakes(ids, b1, id);
    NotifyTakes(ids, DropPusher(b1, id), id, PeerLeft(id));
    PoolMore(ids, b, b1, DropPusher(b1, id));
    PoolMore(ids, b, DropPusher(b1, id), RemoveSession(b, id));
  }

  lemma {:induction false} ReapTakes(ids: set<Id>, b: Broker, now: Time, order: seq<Id>)
    ensures PoolTaken(ids, b, ReapEach(b, now, order))
  {
    hide PoolTaken, RemoveSession;
    if order == [] {
      PoolSame(ids, b, b);
    } else {
      var n := |order| - 1;
      var c := ReapEach(b, now, order[..n]);
      ReapTakes(ids, b, now, order[..n]);
      RemoveTakes(ids, c, order[n]);
      PoolMore(ids, b, c, RemoveSession(c, order[n]));
    }
  }

  lemma FanToTakes(ids: set<Id>, b: Broker, from: Id, content: string, to: Id, st: Stamp)
    requires st.id in ids
    ensures PoolTaken(ids, b, FanTo(b, from, content, to, st))
  {
    hide PoolTaken, Deliver, Enqueued;
    PoolSame(ids, b, b);
    if to != from && to in b.sessions {
      var m := Copy(b.cfg, from, content, to, st);
      PoolSame(ids, b, WithInbox(b, to, m));
      DeliverTakes(ids, WithInbox(b, to, m), to, MessageEvent(m));
      PoolMore(ids, b, WithInbox(b, to, m), Deliver(WithInbox(b, to, m), to, MessageEvent(m)));
    }
  }

  lemma {:induction false} FanoutTakes(ids: set<Id>, b: Broker, from: Id, content: string, order: seq<Id>, stamps: map<Id, Stamp>)
    requires "" in ids && forall k :: k in stamps ==> stamps[k].id in ids
    ensures PoolTaken(ids, b, Fanout(b, from, content, order, stamps))
  {
    hide PoolTaken, FanTo;
    if order == [] {
      PoolSame(ids, b, b);
    } else {
      var n := |order| - 1;
      var c := Fanout(b, from, content, order[..n], stamps);
      FanoutTakes(ids, b, from, content, order[..n], stamps);
      FanToTakes(ids, c, from, content, order[n], StampFor(stamps, order[n]));
      PoolMore(ids, b, c, Fanout(b, from, content, order, stamps));
    }
  }

  lemma SendTakes(b: Broker, msg: Message, id: Id, at: Time, tripAt: Time)
    ensures PoolTaken({id}, b, DoSend(b, msg, id, at, tripAt).state)
  {
    hide PoolTaken, Deliver, Suppressed, Breaker, Enqueued;
    var ids, m, b0 := {id}, Stamped(b.cfg, msg, id, at), b.(clock := at);
    PoolSame(ids, b, b0);
    DeliverTakes(ids, b0, m.to, MessageEvent(m));
    PoolMore(ids, b, b0, Deliver(b0, m.to, MessageEvent(m)));
    if m.to in b.sessions {
      var b1 := WithInbox(b, m.to, m).(histories := Breaker(b.cfg, b.histories, m, tripAt), clock := tripAt);
      PoolSame(ids, b, b1);
      DeliverTakes(ids, b1, m.to, MessageEvent(m));
      PoolMore(ids, b, b1, Deliver(b1, m.to, MessageEvent(m)));
    }
  }

  lemma BroadcastTakes(b: Broker, now: Time, from: Id, content: string, order: seq<Id>, stamps: map<Id, Stamp>, end: Time)
    ensures PoolTaken(IdsOf(Broadcast(now, from, content, order, stamps, end)), b, DoBroadcast(b, now, from, content, order, stamps, end).state)
  {
    hide PoolTaken, Fanout, AfterTake, Grants;
    var ids, d := IdsOf(Broadcast(now, from, content, order, stamps, end)), Charged(b, from, now);
    var f := Fanout(d, from, content, order, stamps);
    PoolSame(ids, b, d);
    FanoutTakes(ids, d, from, content, order, stamps);
    PoolMore(ids, b, d, f);
    PoolSame(ids, f, f.(clock := end));
    PoolMore(ids, b, f, f.(clock := end));
  }

  // Besides, a command may start a pusher.
  ghost predicate PoolAfter(ids: set<Id>, b: Broker, c: Broker) {
    && |b.pool| <= |c.pool|
    && (forall pid: nat :: pid < |b.pool| ==> Taken(ids, b.pool[pid], c.pool[pid]))
    && (forall pid: nat :: |b.pool| <= pid < |c.pool| ==> c.pool[pid].handed == [] && c.pool[pid].fates == [])
  }

  lemma SubscribeTakes(b: Broker, id: Id)
    ensures PoolAfter({}, b, DoSubscribe(b, id).state)
  {
    DropTakes({}, b, id);
    hide Taken, DropPusher;
  }

  // Whatever a command hands over, each event finds room in the mailbox exactly if the
  // mailbox is not full at that moment.
  lemma ExecTakes(b: Broker, cmd: Cmd)
    ensures PoolAfter(IdsOf(cmd), b, Exec(b, cmd).state)
  {
    hide Taken, NotifyPeers, DropPusher, RemoveSession, ReapEach, DoSend, DoBroadcast, DoSubscribe;
    var ids, c := IdsOf(cmd), Exec(b, cmd).state;
    PoolSame(ids, b, b);
    match cmd
    case Register(now, id, path) =>
      var s := Session(id, path, now, now);
      NotifyTakes(ids, b.(sessions := b.sessions[id := Entry(s, [], Full(b.cfg.broadcastBurst, b.cfg.broadcastRefill, now))], clock := now), id, PeerJoined(s));
    case Unregister(id) => RemoveTakes(ids, b, id);
    case Send(msg, id, at, tripAt) => SendTakes(b, msg, id, at, tripAt);
    case Broadcast(now, from, content, order, stamps, end) => BroadcastTakes(b, now, from, content, order, stamps, end);
    case Subscribe(id) => SubscribeTakes(b, id);
    case Cancel(id, pid) => DropTakes(ids, b, id);
    case Reap(now, order) => ReapTakes(ids, b.(clock := now), now, order);
    case _ =>
  }

  // ---- Every loss is at a full channel --------------------------------------------------------

  // Whatever p has lost on its way to q, it has lost at a full mailbox, at a full out, or to
  // the timer of a blocking push; and nothing that was handed over meanwhile was kept by a
  // full mailbox.
  ghost predicate LostAtFullChannels(p: PusherState, q: PusherState) {
    && |p.fates| <= |q.fates| == |q.handed|
    && (forall i :: |p.fates| <= i < |q.fates| ==> (q.fates[i] == LostAtMailbox <==> |p.mailbox| + (i - |p.fates|) >= p.cap))
    && (forall i :: 0 <= i < |q.fates| && (i < |p.fates| ==> q.fates[i] != p.fates[i]) ==>
          && (q.fates[i] == LostAtMailbox ==> i >= |p.fates| && |q.mailbox| == q.cap)
          && (q.fates[i] == LostAtOut ==>
                i < |p.fates| && p.phase == Holding(q.handed[i]) && (Threaded(q.handed[i]) || |p.out| == 16)))
  }

  lemma TakenLoses(ids: set<Id>, p: PusherState, q: PusherState)
    requires Taken(ids, p, q) && |q.fates| == |q.handed| && |p.mailbox| <= p.cap
    ensures LostAtFullChannels(p, q)
  {
    forall i | 0 <= i < |p.fates| ensures q.fates[i] == p.fates[i] { assert q.fates[i] == q.fates[..|p.fates|][i]; }
    hide Issued;
  }

  lemma StepLoses(p: PusherState, s: Pushers.Step)
    requires Accounted(p) && Owned(p) && Enabled(p, s)
    ensures LostAtFullChannels(p, After(p, s))
  {
    if s.SendOut? || s.DropFull? || s.TimerFires? {
      LettingGoLoses(p, s);
    } else {
      RetagsOnly(p.fates, Queued, InHand);
      hide InOrder, Pick, FirstRetagged;
    }
  }

  lemma LettingGoLoses(p: PusherState, s: Pushers.Step)
    requires Accounted(p) && |p.out| <= OUT_BUFFER && Enabled(p, s) && (s.SendOut? || s.DropFull? || s.TimerFires?)
    ensures LostAtFullChannels(p, After(p, s))
  {
    var i, to := First(p.fates, InHand), if s.SendOut? then Sent else LostAtOut;
    if InHand !in p.fates { PickNone(p.handed, p.fates, InHand); }
    HandIsNext(p);
    RetaggedIsFirst(p.fates, InHand, to);
    assert |p.fates| == |p.handed|;
    hide Accounted, First, FirstRetagged, Tally;
    assert After(p, s).fates == p.fates[i := to] && After(p, s).handed == p.handed;
    hide After;
    OneRetagged(p, After(p, s), i, to);
  }

  lemma OneRetagged(p: PusherState, q: PusherState, i: nat, to: Pushers.Fate)
    requires |p.fates| == |p.handed| && i < |p.fates| && q.fates == p.fates[i := to] && q.handed == p.handed
    requires to == Sent || (to == LostAtOut && p.phase == Holding(p.handed[i]) && (Threaded(p.handed[i]) || |p.out| == 16))
    ensures LostAtFullChannels(p, q)
  {
  }

  // In every reachable state, whatever step is taken next by whatever goroutine.
  lemma LossNeedsFullChannel(cfg: Settings, now: Time, steps: seq<Shells.Step>, st: Shells.Step, pid: nat)
    requires Shells.IsTrace(Shells.Start(cfg, now), steps)
    requires var s := Shells.End(Shells.Start(cfg, now), steps); Shells.Can(s, st) && pid < |s.broker.pool|
    ensures var s := Shells.End(Shells.Start(cfg, now), steps); var t := Shells.Apply(s, st);
            pid < |t.broker.pool| && LostAtFullChannels(s.broker.pool[pid], t.broker.pool[pid])
  {
    hide Shells.End, Shells.IsTrace;
    InitInvariant(cfg, now);
    Shells.TraceKeepsPushersHeld(Shells.Start(cfg, now), steps);
    StepLosesAtFullChannels(Shells.End(Shells.Start(cfg, now), steps), st, pid);
  }

  lemma StepLosesAtFullChannels(s: Shells.Shell, st: Shells.Step, pid: nat)
    requires Shells.PushersHeld(s) && Shells.Can(s, st) && pid < |s.broker.pool|
    ensures var t := Shells.Apply(s, st);
            pid < |t.broker.pool| && LostAtFullChannels(s.broker.pool[pid], t.broker.pool[pid])
  {
    var b, t := s.broker, Shells.Apply(s, st);
    var p := b.pool[pid];
    assert Sound(p, b.cfg.maxInboxSize);
    Shells.StepKeepsPushersHeld(s, st);
    TakenNothing({}, p, p);
    TakenLoses({}, p, p);
    match st
    case Execute(cmd) => CommandLoses(b, cmd, pid);
    case Tick(now, order) => CommandLoses(b, Reap(now, order), pid);
    case Work(i, step) => if i == pid { StepLoses(p, step); }
    case Exit =>
      TakenNothing({}, p, Stopped(p));
      TakenLoses({}, p, Stopped(p));
    case _ =>
    hide Exec, Admissible, Enabled, After, Stopped, Taken, LostAtFullChannels, Sound, PushersOwned;
  }

  lemma CommandLoses(b: Broker, cmd: Cmd, pid: nat)
    requires PushersOwned(b) && pid < |b.pool|
    ensures var c := Exec(b, cmd).state; pid < |c.pool| && LostAtFullChannels(b.pool[pid], c.pool[pid])
  {
    hide Exec, Taken, LostAtFullChannels, Active;
    ExecTakes(b, cmd);
    ExecKeepsOwnership(b, cmd);
    var c := Exec(b, cmd).state;
    assert Sound(c.pool[pid], c.cfg.maxInboxSize);
    TakenLoses(IdsOf(cmd), b.pool[pid], c.pool[pid]);
  }

  // ---- Delivered by a push and by a poll ------------------------------------------------------

  predicate Carries(ev: Event, id: Id) { ev.MessageEvent? && ev.msg.id == id }

  // No inbox holds a message with this id.
  ghost predicate Unstored(b: Broker, id: Id) {
    forall i, m :: m in Conservation.InboxOf(b, i) ==> m.id != id
  }

  // A pusher has lost whatever it was handed with this id.
  ghost predicate LostAll(p: PusherState, id: Id) {
    |p.fates| == |p.handed| && forall i :: 0 <= i < |p.handed| && Carries(p.handed[i], id) ==> p.fates[i] in {LostAtMailbox, LostAtOut}
  }

  ghost predicate OutOfReach(b: Broker, id: Id) { forall pid: nat :: pid < |b.pool| ==> LostAll(b.pool[pid], id) }

  // The id has not been used yet.
  ghost predicate Fresh(b: Broker, id: Id) {
    && id != "" && Unstored(b, id)
    && forall pid: nat, ev :: pid < |b.pool| && ev in b.pool[pid].handed ==> !Carries(ev, id)
  }

  // Nor is it ever used again.
  predicate NeverIssued(acts: seq<Action>, id: Id) {
    forall k :: 0 <= k < |acts| && acts[k].Do? ==> id !in IdsOf(acts[k].cmd)
  }

  // The subscriber of the recipient has read message m, and a poll has returned it.
  ghost predicate DeliveredBothWays(b: Broker, acts: seq<Action>, m: Message) {
    ReadIn(Run(b, acts), m) && exists k: nat :: PolledIn(b, acts, m, k)
  }

  ghost predicate ReadIn(b: Broker, m: Message) {
    exists pid: nat :: pid < |b.pool| && b.pool[pid].owner == m.to && MessageEvent(m) in b.pool[pid].received
  }

  ghost predicate PolledIn(b: Broker, acts: seq<Action>, m: Message, k: nat) {
    && k < |acts| && acts[k].Do? && acts[k].cmd.Poll?
    && var r := Exec(Run(b, acts[..k]), acts[k].cmd).reply; r.Polled? && m in r.msgs
  }

  // -- What was neither stored nor pushed never turns up

  lemma UnstoredStays(b: Broker, a: Action, id: Id)
    requires Unstored(b, id) && Possible(b, a) && (a.Do? ==> id !in IdsOf(a.cmd)) && id != ""
    ensures Unstored(Next(b, a), id)
  {
    forall i, m | m in Conservation.InboxOf(Next(b, a), i) ensures m.id != id {
      Conservation.InboxStep(b, a, i);
      AcceptedIsIssued(b, a, i);
      hide Next, Conservation.AcceptedBy, Conservation.InboxOf, IdsOf;
      if a.Do? && a.cmd.Reap? { FilterMembers(Conservation.InboxOf(b, i), Live(a.cmd.now), m); }
    }
  }

  lemma AcceptedIsIssued(b: Broker, a: Action, i: Id)
    ensures Conservation.AcceptedBy(b, a, i).Some? ==> a.Do? && Conservation.AcceptedBy(b, a, i).value.id in IdsOf(a.cmd)
  {
    hide HasToken;
  }

  lemma OutOfReachStays(b: Broker, a: Action, id: Id)
    requires OutOfReach(b, id) && PushersOwned(b) && PushersOwned(Next(b, a)) && (a.Do? ==> id !in IdsOf(a.cmd))
    ensures OutOfReach(Next(b, a), id)
  {
    var c := Next(b, a);
    forall pid: nat | pid < |c.pool| ensures LostAll(c.pool[pid], id) {
      assert Sound(c.pool[pid], c.cfg.maxInboxSize);
      match a
      case Do(cmd) =>
        ExecTakes(b, cmd);
        hide Exec, Taken, LostAll;
        if pid < |b.pool| { LostStaysLost(IdsOf(cmd), b.pool[pid], c.pool[pid], id); } else { NothingLost(c.pool[pid], id); }
      case Push(i, s) =>
        if i == pid && i < |b.pool| && Enabled(b.pool[i], s) { StepLosesForGood(b.pool[pid], s, id); }
        hide After, Enabled, LostAll;
        assert pid < |b.pool| && LostAll(b.pool[pid], id);
    }
  }

  lemma NothingLost(p: PusherState, id: Id)
    requires p.handed == [] && p.fates == []
    ensures LostAll(p, id)
  {
  }

  lemma LostStaysLost(ids: set<Id>, p: PusherState, q: PusherState, id: Id)
    requires LostAll(p, id) && Taken(ids, p, q) && |q.fates| == |q.handed| && id !in ids
    ensures LostAll(q, id)
  {
    assert forall i :: |p.handed| <= i < |q.handed| ==> !Carries(q.handed[i], id);
    forall i | 0 <= i < |p.handed| ensures q.handed[i] == p.handed[i] && q.fates[i] == p.fates[i] {
      assert q.handed[i] == q.handed[..|p.handed|][i] && q.fates[i] == q.fates[..|p.fates|][i];
    }
  }

  lemma StepLosesForGood(p: PusherState, s: Pushers.Step, id: Id)
    requires LostAll(p, id) && Enabled(p, s)
    ensures LostAll(After(p, s), id)
  {
    RetagsOnly(p.fates, Queued, InHand);
    RetagsOnly(p.fates, InHand, Sent);
    RetagsOnly(p.fates, InHand, LostAtOut);
    hide FirstRetagged;
  }

  lemma {:induction false} NeverStored(b: Broker, acts: seq<Action>, id: Id)
    requires Unstored(b, id) && BrokerModel.IsRun(b, acts) && NeverIssued(acts, id) && id != ""
    ensures Unstored(Run(b, acts), id)
  {
    hide Unstored, Next, Possible;
    if acts != [] {
      var n := |acts| - 1;
      NeverStored(b, acts[..n], id);
      UnstoredStays(Run(b, acts[..n]), acts[n], id);
    }
  }

  lemma {:induction false} NeverReached(b: Broker, acts: seq<Action>, id: Id)
    requires Invariant(b) && OutOfReach(b, id) && NeverIssued(acts, id)
    ensures Invariant(Run(b, acts)) && OutOfReach(Run(b, acts), id)
  {
    hide OutOfReach, Next, PushersOwned, InboxesBounded;
    if acts != [] {
      var n := |acts| - 1;
      NeverReached(b, acts[..n], id);
      NextKeepsInvariant(Run(b, acts[..n]), acts[n]);
      OutOfReachStays(Run(b, acts[..n]), acts[n], id);
    }
  }

  lemma OutOfReachIsUnread(b: Broker, m: Message)
    requires PushersOwned(b) && OutOfReach(b, m.id)
    ensures !ReadIn(b, m)
  {
    hide LostAll, Accounted, Owned, LossesEarned, Active;
    forall pid: nat | pid < |b.pool| ensures MessageEvent(m) !in b.pool[pid].received {
      assert Sound(b.pool[pid], b.cfg.maxInboxSize);
      LostIsUnread(b.pool[pid], MessageEvent(m), m.id);
    }
  }

  lemma LostIsUnread(p: PusherState, ev: Event, id: Id)
    requires Accounted(p) && LostAll(p, id) && Carries(ev, id)
    ensures ev !in p.received
  {
    hide InOrder, Pick;
    PickLength(p.handed, p.fates, Sent);
    assert forall e :: e in p.received ==> e in p.received + p.out;
  }

  lemma UnstoredIsUnpolled(b: Broker, acts: seq<Action>, m: Message, k: nat)
    requires Unstored(b, m.id) && BrokerModel.IsRun(b, acts) && NeverIssued(acts, m.id) && m.id != ""
    ensures !PolledIn(b, acts, m, k)
  {
    if k < |acts| && acts[k].Do? && acts[k].cmd.Poll? {
      PrefixIsRun(b, acts, k);
      NeverStored(b, acts[..k], m.id);
      hide Run;
      assert m !in Conservation.InboxOf(Run(b, acts[..k]), acts[k].cmd.id);
    }
  }

  // -- What was both stored and pushed can be had both ways

  // Left to itself and its subscriber, a running worker gets every event of its mailbox out.
  lemma {:induction false} GetsRead(p: PusherState, ev: Event) returns (steps: seq<Pushers.Step>)
    requires !p.phase.Exited? && !p.closed
    requires ev in p.mailbox || p.phase == Holding(ev) || ev in p.out || ev in p.received
    ensures Pushers.IsRun(p, steps) && ev in AfterAll(p, steps).received && AfterAll(p, steps).owner == p.owner
    decreases 3 * |p.mailbox| + (if p.phase.Holding? then 2 else 0) + |p.out|
  {
    if ev in p.received {
      steps := [];
    } else {
      var s := if p.out != [] then Receive else if p.phase.Holding? then SendOut else TakeMail;
      WorkerGoesOn(p, s, ev);
      hide Retag;
      var rest := GetsRead(After(p, s), ev);
      steps := [s] + rest;
      assert steps[1..] == rest;
    }
  }

  lemma WorkerGoesOn(p: PusherState, s: Pushers.Step, ev: Event)
    requires !p.phase.Exited? && !p.closed && ev !in p.received
    requires ev in p.mailbox || p.phase == Holding(ev) || ev in p.out
    requires s == if p.out != [] then Receive else if p.phase.Holding? then SendOut else TakeMail
    ensures Enabled(p, s)
    ensures var q := After(p, s);
            && !q.phase.Exited? && !q.closed && q.owner == p.owner
            && (ev in q.mailbox || q.phase == Holding(ev) || ev in q.out || ev in q.received)
  {
    hide Retag;
    if p.out != [] && ev in p.out { assert p.out == [p.out[0]] + p.out[1..]; }
    if p.out == [] && p.mailbox != [] && ev in p.mailbox { assert p.mailbox == [p.mailbox[0]] + p.mailbox[1..]; }
  }

  function Pushes(pid: nat, steps: seq<Pushers.Step>): seq<Action> {
    if steps == [] then [] else [Push(pid, steps[0])] + Pushes(pid, steps[1..])
  }

  lemma {:induction false} RunCons(b: Broker, a: Action, acts: seq<Action>)
    ensures Run(b, [a] + acts) == Run(Next(b, a), acts)
    ensures Possible(b, a) && BrokerModel.IsRun(Next(b, a), acts) ==> BrokerModel.IsRun(b, [a] + acts)
    decreases |acts|
  {
    hide Next, Possible;
    if acts == [] {
      EmptyBrokerRun(b);
      RunSnoc(b, [], a);
      assert [] + [a] == [a] + acts;
    } else {
      var n := |acts| - 1;
      RunCons(b, a, acts[..n]);
      RunSnoc(b, [a] + acts[..n], acts[n]);
      assert [a] + acts == [a] + acts[..n] + [acts[n]];
    }
  }

  lemma {:induction false} PushesRun(b: Broker, pid: nat, steps: seq<Pushers.Step>)
    requires pid < |b.pool| && Pushers.IsRun(b.pool[pid], steps)
    ensures var acts := Pushes(pid, steps);
            && BrokerModel.IsRun(b, acts)
            && Run(b, acts) == b.(pool := b.pool[pid := AfterAll(b.pool[pid], steps)])
    ensures forall k :: 0 <= k < |Pushes(pid, steps)| ==> Pushes(pid, steps)[k].Push?
    decreases |steps|
  {
    if steps == [] {
      EmptyBrokerRun(b);
      assert b.pool[pid := b.pool[pid]] == b.pool;
    } else {
      var q := After(b.pool[pid], steps[0]);
      var c := b.(pool := b.pool[pid := q]);
      assert Next(b, Push(pid, steps[0])) == c && Possible(b, Push(pid, steps[0]));
      hide After, Enabled;
      PushesRun(c, pid, steps[1..]);
      RunCons(b, Push(pid, steps[0]), Pushes(pid, steps[1..]));
      assert b.pool[pid := q][pid := AfterAll(q, steps[1..])] == b.pool[pid := AfterAll(q, steps[1..])];
    }
  }

  // The subscriber reads on until it has the message, and then somebody polls.
  lemma BothWaysAhead(c: Broker, m: Message, pid: nat) returns (acts: seq<Action>)
    requires pid < |c.pool| && c.pool[pid].owner == m.to && !c.pool[pid].phase.Exited? && !c.pool[pid].closed
    requires MessageEvent(m) in c.pool[pid].mailbox && m in Conservation.InboxOf(c, m.to)
    ensures BrokerModel.IsRun(c, acts) && NeverIssued(acts, m.id) && DeliveredBothWays(c, acts, m)
  {
    var steps := GetsRead(c.pool[pid], MessageEvent(m));
    PushesRun(c, pid, steps);
    var pushes := Pushes(pid, steps);
    var d := Run(c, pushes);
    acts := pushes + [Do(Poll(m.to))];
    RunSnoc(c, pushes, Do(Poll(m.to)));
    assert acts[..|pushes|] == pushes;
    hide Run, Pushes, AfterAll, Pushers.IsRun, BrokerModel.IsRun;
    assert d.pool[pid].owner == m.to && MessageEvent(m) in d.pool[pid].received;
    assert Next(d, Do(Poll(m.to))).pool == d.pool;
    assert ReadIn(Run(c, acts), m);
    PollReturnsInbox(d, m.to);
    assert PolledIn(c, acts, m, |pushes|);
  }

  // -- Exactly when

  lemma SendLeavesElsewhere(b: Broker, msg: Message, id: Id, at: Time, tripAt: Time)
    requires Fresh(b, id)
    ensures var c := Exec(b, Send(msg, id, at, tripAt)).state;
            msg.kind != KIND_MESSAGE || msg.to !in b.sessions ==> Unstored(c, id)
  {
    SendSessions(b, msg, id, at, tripAt);
    hide DoSend;
    var c := Exec(b, Send(msg, id, at, tripAt)).state;
    if msg.kind != KIND_MESSAGE || msg.to !in b.sessions {
      forall i ensures Conservation.InboxOf(c, i) == Conservation.InboxOf(b, i) {}
    }
  }

  // A stored message that was not pushable is out of its subscriber's reach.
  lemma SendMissesPusher(b: Broker, msg: Message, id: Id, at: Time, tripAt: Time)
    requires PushersOwned(b) && Fresh(b, id) && !Pushable(b, msg, id, at, tripAt)
    requires msg.kind == KIND_MESSAGE && msg.to in b.sessions
    ensures OutOfReach(Exec(b, Send(msg, id, at, tripAt)).state, id)
  {
    hide Suppressed, Breaker, Enqueued, Active;
    var c := Exec(b, Send(msg, id, at, tripAt)).state;
    var ev := MessageEvent(Stamped(b.cfg, msg, id, at));
    forall pid: nat | pid < |c.pool| ensures LostAll(c.pool[pid], id) {
      assert Sound(b.pool[pid], b.cfg.maxInboxSize);
      assert c.pool[pid] == b.pool[pid] || (c.pool[pid] == Hand(b.pool[pid], ev) && |b.pool[pid].mailbox| >= b.pool[pid].cap);
      hide Accounted, Owned, LossesEarned;
      HandOverIsLost(b.pool[pid], ev, id) by { assert Accounted(b.pool[pid]); }
    }
  }

  lemma HandOverIsLost(p: PusherState, ev: Event, id: Id)
    requires Accounted(p) && forall e :: e in p.handed ==> !Carries(e, id)
    ensures LostAll(p, id)
    ensures |p.mailbox| >= p.cap ==> LostAll(Hand(p, ev), id)
  {
    forall i | 0 <= i < |p.handed| ensures !Carries(p.handed[i], id) { assert p.handed[i] in p.handed; }
    hide InOrder, Pick;
  }

  lemma SendReachesPusher(b: Broker, msg: Message, id: Id, at: Time, tripAt: Time)
    requires Invariant(b) && Fresh(b, id) && Pushable(b, msg, id, at, tripAt)
    ensures msg.to in b.pushers
    ensures var m, c, pid := Stamped(b.cfg, msg, id, at), Exec(b, Send(msg, id, at, tripAt)).state, b.pushers[msg.to];
            && m in Conservation.InboxOf(c, m.to) && pid < |c.pool| && c.pool[pid].owner == m.to
            && !c.pool[pid].phase.Exited? && !c.pool[pid].closed && MessageEvent(m) in c.pool[pid].mailbox
  {
    PushedAndKept(b, msg, id, at, tripAt);
    var cmd := Send(msg, id, at, tripAt);
    var c, pid := Exec(b, cmd).state, b.pushers[msg.to];
    NextKeepsInvariant(b, Do(cmd));
    assert c.pushers == b.pushers by { SendLeavesPushers(b, msg, id, at, tripAt); }
    hide Exec, Pushable, Accounted, LossesEarned;
    assert Active(c, pid) && Sound(c.pool[pid], c.cfg.maxInboxSize);
    assert c.pool[pid].stops == 0;
  }

  lemma SendLeavesPushers(b: Broker, msg: Message, id: Id, at: Time, tripAt: Time)
    ensures Exec(b, Send(msg, id, at, tripAt)).state.pushers == b.pushers
  {
    hide Hand, Suppressed, Breaker, Enqueued;
  }

  // After a send with a new id, whatever the broker and the subscribers go on to do, some
  // continuation has the subscriber read the message and a poll return it, exactly if the
  // message was pushable.
  lemma DeliveredBothWaysIffPushable(b: Broker, msg: Message, id: Id, at: Time, tripAt: Time)
    requires Invariant(b) && Fresh(b, id)
    ensures var m, c := Stamped(b.cfg, msg, id, at), Exec(b, Send(msg, id, at, tripAt)).state;
            (exists acts :: BrokerModel.IsRun(c, acts) && NeverIssued(acts, id) && DeliveredBothWays(c, acts, m))
            <==> Pushable(b, msg, id, at, tripAt)
  {
    hide Exec, Pushable, Fresh, DeliveredBothWays, BrokerModel.IsRun, NeverIssued, PushersOwned, InboxesBounded;
    var m, c := Stamped(b.cfg, msg, id, at), Exec(b, Send(msg, id, at, tripAt)).state;
    if Pushable(b, msg, id, at, tripAt) {
      SendReachesPusher(b, msg, id, at, tripAt);
      var acts := BothWaysAhead(c, m, b.pushers[msg.to]);
    } else {
      forall acts | BrokerModel.IsRun(c, acts) && NeverIssued(acts, id) ensures !DeliveredBothWays(c, acts, m) {
        NotBothWays(b, msg, id, at, tripAt, acts);
      }
    }
  }

  lemma NotBothWays(b: Broker, msg: Message, id: Id, at: Time, tripAt: Time, acts: seq<Action>)
    requires Invariant(b) && Fresh(b, id) && !Pushable(b, msg, id, at, tripAt)
    requires var c := Exec(b, Send(msg, id, at, tripAt)).state; BrokerModel.IsRun(c, acts) && NeverIssued(acts, id)
    ensures var m, c := Stamped(b.cfg, msg, id, at), Exec(b, Send(msg, id, at, tripAt)).state; !DeliveredBothWays(c, acts, m)
  {
    hide Exec, Pushable, BrokerModel.IsRun, NeverIssued, PushersOwned, InboxesBounded, Run, ReadIn, PolledIn, OutOfReach, Unstored;
    var m, c := Stamped(b.cfg, msg, id, at), Exec(b, Send(msg, id, at, tripAt)).state;
    if msg.kind == KIND_MESSAGE && msg.to in b.sessions {
      SendMissesPusher(b, msg, id, at, tripAt);
      NextKeepsInvariant(b, Do(Send(msg, id, at, tripAt)));
      NextIsExec(b, Send(msg, id, at, tripAt));
      NeverReached(c, acts, id);
      OutOfReachIsUnread(Run(c, acts), m);
    } else {
      SendLeavesElsewhere(b, msg, id, at, tripAt);
      forall k: nat ensures !PolledIn(c, acts, m, k) { UnstoredIsUnpolled(c, acts, m, k); }
    }
  }
}
