// What does not influence what. Sessions, buckets, inboxes and replies depend on
// neither the breaker, nor subscriptions, nor pusher scheduling, nor permission
// messages; the breaker only ever thins out what pushers are handed.
module Independence {
  import opened Types
  import opened Inboxes
  import opened TokenBuckets
  import opened Livelock
  import opened Ledgers
  import opened Pushers
  import opened BrokerModel
  import opened Effects
  import opened Invariants
  import Conservation

  // ---- The store is independent of the push side -----------------------------------

  // The same configuration, up to the breaker.
  predicate SameLimits(c: Settings, d: Settings) {
    && c.messageTTL == d.messageTTL && c.sessionTTL == d.sessionTTL && c.maxInboxSize == d.maxInboxSize
    && c.broadcastBurst == d.broadcastBurst && c.broadcastRefill == d.broadcastRefill
  }

  predicate SameStore(b: Broker, c: Broker) { SameLimits(b.cfg, c.cfg) && b.sessions == c.sessions }

  // Actions that only concern pushing: worker steps, subscriptions and permission relay.
  predicate PushOnly(a: Action) {
    a.Push? || a.cmd.Subscribe? || a.cmd.Cancel? || (a.cmd.Send? && a.cmd.msg.kind != KIND_MESSAGE)
  }

  function Erased(acts: seq<Action>): seq<Action> {
    if acts == [] then []
    else Erased(acts[..|acts| - 1]) + if PushOnly(acts[|acts| - 1]) then [] else [acts[|acts| - 1]]
  }

  // Every reply but those to the erased actions, in order.
  ghost function Replies(b: Broker, acts: seq<Action>): seq<Reply> {
    if acts == [] then []
    else
      var n := |acts| - 1;
      Replies(b, acts[..n]) + if PushOnly(acts[n]) then [] else [Exec(Run(b, acts[..n]), acts[n].cmd).reply]
  }

  // Map iteration visits no key twice.
  ghost predicate OrdersDistinct(acts: seq<Action>) {
    forall i :: 0 <= i < |acts| && acts[i].Do? && acts[i].cmd.Broadcast? ==> Distinct(acts[i].cmd.order)
  }

  lemma SameEntryAfter(b: Broker, c: Broker, cmd: Cmd, id: Id)
    requires SameStore(b, c)
    ensures EntryAfter(b, cmd, id) == EntryAfter(c, cmd, id)
  {
    hide AfterTake, Grants;
    if cmd.Broadcast? {
      var x, y := Charged(b, cmd.id, cmd.now), Charged(c, cmd.id, cmd.now);
      assert WithBucketFor(b, cmd.id, cmd.now).sessions == WithBucketFor(c, cmd.id, cmd.now).sessions;
      assert x.sessions == y.sessions;
    }
  }

  lemma SameCommandSameEffect(b: Broker, c: Broker, cmd: Cmd)
    requires SameStore(b, c) && (cmd.Broadcast? ==> Distinct(cmd.order))
    ensures SameStore(Exec(b, cmd).state, Exec(c, cmd).state)
    ensures !cmd.Subscribe? ==> Exec(b, cmd).reply == Exec(c, cmd).reply
  {
    hide Exec, EntryAfter;
    var x, y := Exec(b, cmd).state, Exec(c, cmd).state;
    forall id ensures id in x.sessions <==> id in y.sessions
              ensures id in x.sessions ==> x.sessions[id] == y.sessions[id]
    {
      EntryAfterIsRight(b, cmd, id);
      EntryAfterIsRight(c, cmd, id);
      SameEntryAfter(b, c, cmd, id);
    }
    assert x.sessions == y.sessions;
    CommandKeepsConfig(b, cmd);
    CommandKeepsConfig(c, cmd);
    if !cmd.Subscribe? { SameReply(b, c, cmd); }
  }

  lemma CommandKeepsConfig(b: Broker, cmd: Cmd)
    ensures Exec(b, cmd).state.cfg == b.cfg
  {
    Conservation.ConfigStays(b, Do(cmd));
  }

  lemma SameReply(b: Broker, c: Broker, cmd: Cmd)
    requires SameStore(b, c) && !cmd.Subscribe?
    ensures Exec(b, cmd).reply == Exec(c, cmd).reply
  {
    hide Fanout, ReapEach, NotifyPeers, DropPusher, Deliver, AfterTake;
    if cmd.Broadcast? { assert WithBucketFor(b, cmd.id, cmd.now).sessions == WithBucketFor(c, cmd.id, cmd.now).sessions; }
  }

  lemma PushOnlyLeavesStore(b: Broker, a: Action)
    requires PushOnly(a)
    ensures SameStore(b, Next(b, a))
  {
    if a.Do? {
      CommandKeepsConfig(b, a.cmd);
      forall id ensures EntryAfter(b, a.cmd, id) == if id in b.sessions then Some(b.sessions[id]) else None {}
      forall id { EntryAfterIsRight(b, a.cmd, id); }
      hide EntryAfter, Exec;
      assert Next(b, a).sessions == b.sessions;
    }
  }

  // A run and the same run without the push side agree on every session, inbox and
  // bucket, and on every reply, whatever the breaker settings of either.
  lemma {:induction false} StoreIgnoresPushing(b: Broker, c: Broker, acts: seq<Action>)
    requires SameStore(b, c) && OrdersDistinct(acts)
    ensures SameStore(Run(b, acts), Run(c, Erased(acts)))
    ensures Replies(b, acts) == Replies(c, Erased(acts))
  {
    if acts != [] {
      var n := |acts| - 1;
      StoreIgnoresPushing(b, c, acts[..n]);
      var x, y, e := Run(b, acts[..n]), Run(c, Erased(acts[..n])), Erased(acts[..n]);
      hide Next, Exec, SameStore;
      if PushOnly(acts[n]) {
        PushOnlyLeavesStore(x, acts[n]);
        StoreIsTransitive(Next(x, acts[n]), x, y);
        assert Erased(acts) == e;
      } else {
        SameCommandSameEffect(x, y, acts[n].cmd);
        RunSnoc(c, e, acts[n]);
        assert (e + [acts[n]])[..|e|] == e;
        NextIsExec(x, acts[n].cmd);
        NextIsExec(y, acts[n].cmd);
      }
    }
  }

  lemma NextIsExec(b: Broker, cmd: Cmd)
    ensures Next(b, Do(cmd)) == Exec(b, cmd).state
  {
  }

  lemma StoreIsTransitive(b: Broker, c: Broker, d: Broker)
    requires SameStore(c, b) && SameStore(c, d)
    ensures SameStore(b, d)
  {
  }

  // Two runs that differ only on the push side cannot be told apart by the callers
  // of the store.
  lemma RunsAgreeOnStore(b: Broker, c: Broker, acts1: seq<Action>, acts2: seq<Action>)
    requires SameStore(b, c) && OrdersDistinct(acts1) && OrdersDistinct(acts2) && Erased(acts1) == Erased(acts2)
    ensures Run(b, acts1).sessions == Run(c, acts2).sessions
    ensures Replies(b, acts1) == Replies(c, acts2)
  {
    StoreIgnoresPushing(b, c, acts1);
    StoreIgnoresPushing(c, c, acts2);
    hide Run, Replies;
  }

  // An ordinary message for a session with a subscription that gets past the breaker and
  // finds room in the mailbox.
  ghost predicate Pushable(b: Broker, msg: Message, id: Id, at: Time, tripAt: Time)
    requires PushersOwned(b)
  {
    var m := Stamped(b.cfg, msg, id, at);
    && msg.kind == KIND_MESSAGE && msg.to in b.sessions && msg.to in b.pushers
    && !Suppressed(b.cfg, Breaker(b.cfg, b.histories, m, tripAt), m)
    && |b.pool[b.pushers[msg.to]].mailbox| < b.pool[b.pushers[msg.to]].cap
  }

  // Pushing a message does not take it out of the inbox: a send leaves its message in both,
  // to be returned by the next poll and delivered by the pusher, exactly if it is pushable.
  lemma PushedAndKept(b: Broker, msg: Message, id: Id, at: Time, tripAt: Time)
    requires PushersOwned(b)
    requires var m := Stamped(b.cfg, msg, id, at); m !in Conservation.InboxOf(b, m.to)   // its id is fresh
    ensures var m, to, c := Stamped(b.cfg, msg, id, at), msg.to, Exec(b, Send(msg, id, at, tripAt)).state;
            (&& m in Conservation.InboxOf(c, to)
             && to in b.pushers && b.pushers[to] < |c.pool|
             && c.pool[b.pushers[to]].mailbox == b.pool[b.pushers[to]].mailbox + [MessageEvent(m)])
            <==> Pushable(b, msg, id, at, tripAt)
  {
    hide Suppressed, Breaker, Sound, Active, Exec, Stamped, Conservation.InboxOf;
    SendKeeps(b, msg, id, at, tripAt);
    if msg.to in b.pushers { SendPushes(b, msg, id, at, tripAt); }
  }

  // A send asks nothing of its sender: it succeeds exactly if the recipient is there, and
  // whoever it names as its sender, an ordinary message is then kept for the recipient.
  lemma SendIgnoresItsSender(b: Broker, msg: Message, id: Id, at: Time, tripAt: Time)
    requires forall x :: x in Conservation.InboxOf(b, msg.to) ==> x.id != id
    ensures var r := Exec(b, Send(msg, id, at, tripAt));
            && (r.reply == SentAs(id) <==> msg.to in b.sessions) && (r.reply == UnknownSession <==> msg.to !in b.sessions)
            && (msg.kind == KIND_MESSAGE ==>
                  (Stamped(b.cfg, msg, id, at) in Conservation.InboxOf(r.state, msg.to) <==> msg.to in b.sessions))
    ensures forall from :: Exec(b, Send(msg.(from := from), id, at, tripAt)).reply == Exec(b, Send(msg, id, at, tripAt)).reply
  {
    SendKeeps(b, msg, id, at, tripAt);
    hide Deliver, Suppressed, Breaker, Enqueued, Conservation.InboxOf;
  }

  lemma SendKeeps(b: Broker, msg: Message, id: Id, at: Time, tripAt: Time)
    requires var m := Stamped(b.cfg, msg, id, at); m !in Conservation.InboxOf(b, m.to)
    ensures Stamped(b.cfg, msg, id, at) in Conservation.InboxOf(Exec(b, Send(msg, id, at, tripAt)).state, msg.to) <==>
            msg.kind == KIND_MESSAGE && msg.to in b.sessions
  {
    SendSessions(b, msg, id, at, tripAt);
    hide DoSend;
  }

  lemma SendPushes(b: Broker, msg: Message, id: Id, at: Time, tripAt: Time)
    requires msg.to in b.pushers && b.pushers[msg.to] < |b.pool|
    ensures var m, pid, c := Stamped(b.cfg, msg, id, at), b.pushers[msg.to], Exec(b, Send(msg, id, at, tripAt)).state;
            && |c.pool| == |b.pool|
            && (c.pool[pid].mailbox == b.pool[pid].mailbox + [MessageEvent(m)] <==>
                && msg.to in b.sessions && |b.pool[pid].mailbox| < b.pool[pid].cap
                && (msg.kind == KIND_MESSAGE ==> !Suppressed(b.cfg, Breaker(b.cfg, b.histories, m, tripAt), m)))
  {
    hide Suppressed, Breaker, Enqueued;
    var m, p := Stamped(b.cfg, msg, id, at), b.pool[b.pushers[msg.to]];
    HandFits(p, MessageEvent(m));
    hide Hand, Stamped;
  }

  lemma HandFits(p: PusherState, ev: Event)
    ensures Hand(p, ev).mailbox == p.mailbox + [ev] <==> |p.mailbox| < p.cap
    ensures p.mailbox != p.mailbox + [ev]
  {
    assert |p.mailbox + [ev]| == |p.mailbox| + 1;
  }

  function Greeting(cfg: Settings): Message { Message("m", "x", "s", "hi", 0, cfg.messageTTL, "", false, KIND_MESSAGE, "") }

  function GreetingSent(cfg: Settings): seq<Action> {
    [Do(Register(0, "s", "p")), Do(Subscribe("s")), Do(Send(Greeting(cfg).(id := "", ttl := 0), "m", 0, 0))]
  }

  const GREETING_READ: seq<Action> := [Push(0, TakeMail), Push(0, SendOut), Push(0, Receive)]

  // For example: a session registers, subscribes, is sent a message, has it pushed, and
  // polls it once more.
  lemma DeliveredTwice(cfg: Settings)
    ensures var acts := GreetingSent(cfg) + GREETING_READ;
            var b := Run(Init(cfg, 0), acts);
            && BrokerModel.IsRun(Init(cfg, 0), acts) && |b.pool| == 1 && b.pool[0].owner == "s"
            && b.pool[0].received == [MessageEvent(Greeting(cfg))]
            && Exec(b, Poll("s")).reply == Polled([Greeting(cfg)])
  {
    hide Next, Possible, Exec, Run, BrokerModel.IsRun, Hand, New, Greeting;
    var m, b := Greeting(cfg), Init(cfg, 0);
    SentAndPushed(cfg, m);
    EmptyBrokerRun(b);
    ThreeMore(b, [], Do(Register(0, "s", "p")), Do(Subscribe("s")), Do(Send(m.(id := "", ttl := 0), "m", 0, 0)));
    assert [] + GreetingSent(cfg) == GreetingSent(cfg);
    var b3 := Run(b, GreetingSent(cfg));
    PushedOut(b3, "s", cfg.maxInboxSize, MessageEvent(m));
    ThreeMore(b, GreetingSent(cfg), Push(0, TakeMail), Push(0, SendOut), Push(0, Receive));
    PollReturnsInbox(Run(b, GreetingSent(cfg) + GREETING_READ), "s");
  }

  lemma ThreeMore(b: Broker, acts: seq<Action>, a1: Action, a2: Action, a3: Action)
    requires BrokerModel.IsRun(b, acts)
    requires var c := Run(b, acts); Possible(c, a1) && Possible(Next(c, a1), a2) && Possible(Next(Next(c, a1), a2), a3)
    ensures BrokerModel.IsRun(b, acts + [a1, a2, a3])
    ensures Run(b, acts + [a1, a2, a3]) == Next(Next(Next(Run(b, acts), a1), a2), a3)
  {
    hide Next, Possible, Run, BrokerModel.IsRun;
    RunSnoc(b, acts, a1);
    RunSnoc(b, acts + [a1], a2);
    RunSnoc(b, acts + [a1] + [a2], a3);
    assert acts + [a1] + [a2] + [a3] == acts + [a1, a2, a3];
  }

  lemma EmptyBrokerRun(b: Broker)
    ensures Run(b, []) == b && BrokerModel.IsRun(b, [])
  {
  }

  lemma SentAndPushed(cfg: Settings, m: Message)
    requires m == Greeting(cfg)
    ensures var a1, a2, a3 := Do(Register(0, "s", "p")), Do(Subscribe("s")), Do(Send(m.(id := "", ttl := 0), "m", 0, 0));
            var b0 := Init(cfg, 0); var b1 := Next(b0, a1); var b2 := Next(b1, a2); var b3 := Next(b2, a3);
            && Possible(b0, a1) && Possible(b1, a2) && Possible(b2, a3)
            && "s" in b3.sessions && b3.sessions["s"].inbox == [m]
            && b3.pool == [Hand(New("s", cfg.maxInboxSize), MessageEvent(m))]
  {
    var b0 := Init(cfg, 0);
    var b1 := Next(b0, Do(Register(0, "s", "p")));
    assert b1.sessions.Keys == {"s"} && b1.sessions["s"].inbox == [] && b1.pushers == map[] && b1.pool == [];
    var b2 := Next(b1, Do(Subscribe("s")));
    assert b2.pushers == map["s" := 0] && b2.pool == [New("s", cfg.maxInboxSize)];
    FirstSendIsPushed(b2, m.(id := "", ttl := 0), m);
    hide DoSend, Hand, New;
  }

  lemma PushedOut(b: Broker, id: Id, cap: nat, ev: Event)
    requires cap > 0 && b.pool == [Hand(New(id, cap), ev)]
    ensures var a4, a5, a6 := Push(0, TakeMail), Push(0, SendOut), Push(0, Receive);
            var b4 := Next(b, a4); var b5 := Next(b4, a5); var b6 := Next(b5, a6);
            && Possible(b, a4) && Possible(b4, a5) && Possible(b5, a6)
            && |b6.pool| == 1 && b6.pool[0].received == [ev] && b6.pool[0].owner == id && b6.sessions == b.sessions
  {
    var p := b.pool[0];
    var p4 := After(p, TakeMail);
    assert p4.phase == Holding(ev) && p4.out == [];
    var p5 := After(p4, SendOut);
    assert p5.out == [ev];
    assert After(p5, Receive).received == [] + [ev];
  }

  lemma PollReturnsInbox(b: Broker, id: Id)
    requires id in b.sessions
    ensures Exec(b, Poll(id)).reply == Polled(b.sessions[id].inbox)
  {
  }

  // The first message of a pair is never suppressed.
  lemma FirstSendIsPushed(b: Broker, msg: Message, m: Message)
    requires b.clock == 0 && b.histories == map[] && msg.kind == KIND_MESSAGE && m == Stamped(b.cfg, msg, "m", 0)
    requires m.to in b.sessions && b.sessions[m.to].inbox == [] && b.pushers == map[m.to := 0] && b.pool == [New(m.to, b.cfg.maxInboxSize)]
    ensures var c := Exec(b, Send(msg, "m", 0, 0)).state;
            && c.sessions.Keys == b.sessions.Keys && c.sessions[m.to].inbox == [m]
            && c.pool == [Hand(New(m.to, b.cfg.maxInboxSize), MessageEvent(m))]
  {
    hide PairKey, NormalizeBody;
    assert |HistoryOf(Breaker(b.cfg, b.histories, m, 0), PairKey(m.from, m.to))| <= 1;
    assert !Suppressed(b.cfg, Breaker(b.cfg, b.histories, m, 0), m);
    hide Suppressed, Breaker;
  }

  // ---- The breaker only thins out what is pushed ------------------------------------

  // b has been handed no more than c, pusher by pusher.
  ghost predicate Quieter(b: Broker, c: Broker) {
    && b.pushers == c.pushers && |b.pool| == |c.pool|
    && forall pid: nat :: pid < |b.pool| ==> Subsequence(b.pool[pid].handed, c.pool[pid].handed)
  }

  lemma HandedOnce(p: PusherState, q: PusherState, ev: Event)
    requires Subsequence(p.handed, q.handed)
    ensures Subsequence(Hand(p, ev).handed, Hand(q, ev).handed) && Subsequence(p.handed, Hand(q, ev).handed)
  {
    SubsequenceAppend(p.handed, q.handed, ev);
  }

  lemma HandedEach(b: Broker, c: Broker, ev: Event)
    requires Quieter(b, c)
    ensures forall pid: nat :: pid < |b.pool| ==>
              && Subsequence(Hand(b.pool[pid], ev).handed, Hand(c.pool[pid], ev).handed)
              && Subsequence(b.pool[pid].handed, Hand(c.pool[pid], ev).handed)
  {
    forall pid: nat | pid < |b.pool|
      ensures Subsequence(Hand(b.pool[pid], ev).handed, Hand(c.pool[pid], ev).handed)
      ensures Subsequence(b.pool[pid].handed, Hand(c.pool[pid], ev).handed)
    {
      HandedOnce(b.pool[pid], c.pool[pid], ev);
    }
  }

  lemma DeliverQuieter(b: Broker, c: Broker, id: Id, ev: Event)
    requires Quieter(b, c)
    ensures Quieter(Deliver(b, id, ev), Deliver(c, id, ev)) && Quieter(b, Deliver(c, id, ev))
  {
    HandedEach(b, c, ev);
    hide Subsequence, Hand;
  }

  lemma NotifyQuieter(b: Broker, c: Broker, id: Id, ev: Event)
    requires Quieter(b, c)
    ensures Quieter(NotifyPeers(b, id, ev), NotifyPeers(c, id, ev))
  {
    HandedEach(b, c, ev);
    hide Subsequence, Hand, ListensAs;
  }

  lemma DropQuieter(b: Broker, c: Broker, id: Id)
    requires Quieter(b, c)
    ensures Quieter(DropPusher(b, id), DropPusher(c, id))
  {
    hide Subsequence;
  }

  lemma QuieterPieces(b: Broker, c: Broker, id: Id, ev: Event)
    requires Quieter(b, c)
    ensures Quieter(Deliver(b, id, ev), Deliver(c, id, ev)) && Quieter(b, Deliver(c, id, ev))
    ensures Quieter(NotifyPeers(b, id, ev), NotifyPeers(c, id, ev))
    ensures Quieter(DropPusher(b, id), DropPusher(c, id))
  {
    DeliverQuieter(b, c, id, ev);
    NotifyQuieter(b, c, id, ev);
    DropQuieter(b, c, id);
    hide Quieter;
  }

  // Quieter looks only at the push side.
  lemma SamePush(b: Broker, c: Broker, x: Broker, y: Broker)
    requires Quieter(b, c) && x.pushers == b.pushers && x.pool == b.pool && y.pushers == c.pushers && y.pool == c.pool
    ensures Quieter(x, y)
  {
  }

  ghost predicate Ahead(b: Broker, c: Broker) { Quieter(b, c) && SameStore(b, c) }

  lemma RemoveQuieter(b: Broker, c: Broker, id: Id)
    requires Ahead(b, c)
    ensures Ahead(RemoveSession(b, id), RemoveSession(c, id))
  {
    hide Quieter, DropPusher, NotifyPeers;
    var x, y := b.(sessions := b.sessions - {id}), c.(sessions := c.sessions - {id});
    SamePush(b, c, x, y);
    QuieterPieces(x, y, id, PeerLeft(id));
    QuieterPieces(DropPusher(x, id), DropPusher(y, id), id, PeerLeft(id));
    RemoveSessionEffect(b, id);
    RemoveSessionEffect(c, id);
  }

  lemma {:induction false} ReapQuieter(b: Broker, c: Broker, now: Time, order: seq<Id>)
    requires Ahead(b, c)
    ensures Ahead(ReapEach(b, now, order), ReapEach(c, now, order))
  {
    hide Quieter, RemoveSession;
    if order != [] {
      var n := |order| - 1;
      ReapQuieter(b, c, now, order[..n]);
      RemoveQuieter(ReapEach(b, now, order[..n]), ReapEach(c, now, order[..n]), order[n]);
    }
  }

  lemma {:induction false} FanoutQuieter(b: Broker, c: Broker, from: Id, content: string, order: seq<Id>, stamps: map<Id, Stamp>)
    requires Ahead(b, c)
    ensures Ahead(Fanout(b, from, content, order, stamps), Fanout(c, from, content, order, stamps))
  {
    hide Quieter, FanTo;
    if order != [] {
      var n := |order| - 1;
      FanoutQuieter(b, c, from, content, order[..n], stamps);
      FanToQuieter(Fanout(b, from, content, order[..n], stamps), Fanout(c, from, content, order[..n], stamps),
                   from, content, order[n], StampFor(stamps, order[n]));
    }
  }

  lemma FanToQuieter(b: Broker, c: Broker, from: Id, content: string, to: Id, st: Stamp)
    requires Ahead(b, c)
    ensures Ahead(FanTo(b, from, content, to, st), FanTo(c, from, content, to, st))
  {
    hide Quieter, Deliver;
    FanToSessions(b, from, content, to, st);
    FanToSessions(c, from, content, to, st);
    if to != from && to in b.sessions {
      var m := Copy(b.cfg, from, content, to, st);
      SamePush(b, c, WithInbox(b, to, m), WithInbox(c, to, m));
      QuieterPieces(WithInbox(b, to, m), WithInbox(c, to, m), to, MessageEvent(m));
    }
  }

  lemma SendQuieter(b: Broker, c: Broker, msg: Message, id: Id, at: Time, tripAt: Time)
    requires Ahead(b, c) && !c.cfg.livelockEnabled
    ensures Quieter(DoSend(b, msg, id, at, tripAt).state, DoSend(c, msg, id, at, tripAt).state)
  {
    hide Quieter, Deliver, Suppressed, Breaker;
    var m := Stamped(b.cfg, msg, id, at);
    SamePush(b, c, b.(clock := at), c.(clock := at));
    QuieterPieces(b.(clock := at), c.(clock := at), m.to, MessageEvent(m));
    if m.to in b.sessions {
      var x := WithInbox(b, m.to, m).(histories := Breaker(b.cfg, b.histories, m, tripAt), clock := tripAt);
      var y := WithInbox(c, m.to, m).(histories := Breaker(c.cfg, c.histories, m, tripAt), clock := tripAt);
      SamePush(b, c, x, y);
      QuieterPieces(x, y, m.to, MessageEvent(m));
      NeverSuppressed(c.cfg, y.histories, m);
    }
  }

  lemma NeverSuppressed(cfg: Settings, h: map<string, seq<Obs>>, m: Message)
    requires !cfg.livelockEnabled
    ensures !Suppressed(cfg, h, m)
  {
  }

  lemma SubscribeQuieter(b: Broker, c: Broker, id: Id)
    requires Quieter(b, c)
    ensures Quieter(DoSubscribe(b, id).state, DoSubscribe(c, id).state)
  {
    hide DropPusher;
    QuieterPieces(b, c, id, PeerLeft(id));
    assert Subsequence<Event>([], []);
    hide Subsequence;
  }

  lemma BroadcastQuieter(b: Broker, c: Broker, now: Time, from: Id, content: string, order: seq<Id>, stamps: map<Id, Stamp>, end: Time)
    requires Ahead(b, c)
    ensures Quieter(DoBroadcast(b, now, from, content, order, stamps, end).state, DoBroadcast(c, now, from, content, order, stamps, end).state)
  {
    hide Quieter, Fanout, AfterTake, Grants;
    var x, y := Charged(b, from, now), Charged(c, from, now);
    assert WithBucketFor(b, from, now).sessions == WithBucketFor(c, from, now).sessions;
    SamePush(b, c, x, y);
    FanoutQuieter(x, y, from, content, order, stamps);
    var f, g := Fanout(x, from, content, order, stamps), Fanout(y, from, content, order, stamps);
    SamePush(f, g, f.(clock := end), g.(clock := end));
  }

  lemma ReapCommandQuieter(b: Broker, c: Broker, now: Time, order: seq<Id>)
    requires Ahead(b, c)
    ensures Quieter(DoReap(b, now, order).state, DoReap(c, now, order).state)
  {
    hide Quieter, ReapEach;
    var x, y := b.(clock := now), c.(clock := now);
    SamePush(b, c, x, y);
    ReapQuieter(x, y, now, order);
    SamePush(ReapEach(x, now, order), ReapEach(y, now, order), DoReap(b, now, order).state, DoReap(c, now, order).state);
  }

  lemma CommandQuieter(b: Broker, c: Broker, cmd: Cmd)
    requires Ahead(b, c) && !c.cfg.livelockEnabled
    ensures Quieter(Exec(b, cmd).state, Exec(c, cmd).state)
  {
    assert b.pushers == c.pushers;
    hide Quieter, DropPusher, NotifyPeers, DoSubscribe, DoSend, DoBroadcast, DoReap, RemoveSession;
    match cmd
    case Register(now, id, path) =>
      var s := Session(id, path, now, now);
      var t := b.sessions[id := Entry(s, [], Full(b.cfg.broadcastBurst, b.cfg.broadcastRefill, now))];
      SamePush(b, c, b.(sessions := t, clock := now), c.(sessions := t, clock := now));
      QuieterPieces(b.(sessions := t, clock := now), c.(sessions := t, clock := now), id, PeerJoined(s));
    case Unregister(id) => RemoveQuieter(b, c, id);
    case Send(msg, id, at, tripAt) => SendQuieter(b, c, msg, id, at, tripAt);
    case Subscribe(id) => SubscribeQuieter(b, c, id);
    case Cancel(id, pid) => QuieterPieces(b, c, id, PeerLeft(id));
    case Broadcast(now, from, content, order, stamps, end) => BroadcastQuieter(b, c, now, from, content, order, stamps, end);
    case Reap(now, order) => ReapCommandQuieter(b, c, now, order);
    case _ => SamePush(b, c, Exec(b, cmd).state, Exec(c, cmd).state);
  }

  lemma WorkersHandNothing(b: Broker, c: Broker, a: Action)
    requires a.Push?
    ensures Ahead(b, c) ==> Ahead(Next(b, a), c) && Ahead(b, Next(c, a))
  {
    hide Subsequence;
  }

  // The commands of a run, without the steps of the workers.
  function Commands(acts: seq<Action>): seq<Cmd> {
    if acts == [] then []
    else Commands(acts[..|acts| - 1]) + if acts[|acts| - 1].Do? then [acts[|acts| - 1].cmd] else []
  }

  // Take two runs of the same commands, one with the breaker and one without, each
  // with its own scheduling of workers and subscribers. Each pusher of the first is
  // handed a subsequence of what its counterpart in the second is handed.
  lemma {:induction false} BreakerOnlyThinsOut(b: Broker, c: Broker, acts1: seq<Action>, acts2: seq<Action>)
    requires Ahead(b, c) && !c.cfg.livelockEnabled && OrdersDistinct(acts1) && OrdersDistinct(acts2)
    requires Commands(acts1) == Commands(acts2)
    ensures Ahead(Run(b, acts1), Run(c, acts2)) && Run(c, acts2).cfg == c.cfg
    decreases |acts1| + |acts2|
  {
    hide Ahead, Exec;
    if acts1 != [] && acts1[|acts1| - 1].Push? {
      var n := |acts1| - 1;
      assert Commands(acts1) == Commands(acts1[..n]);
      BreakerOnlyThinsOut(b, c, acts1[..n], acts2);
      WorkersHandNothing(Run(b, acts1[..n]), Run(c, acts2), acts1[n]);
    } else if acts2 != [] && acts2[|acts2| - 1].Push? {
      var n := |acts2| - 1;
      assert Commands(acts2) == Commands(acts2[..n]);
      BreakerOnlyThinsOut(b, c, acts1, acts2[..n]);
      WorkersHandNothing(Run(b, acts1), Run(c, acts2[..n]), acts2[n]);
    } else if acts1 != [] {
      var n, k := |acts1| - 1, |acts2| - 1;
      var u, v := Commands(acts1[..n]), Commands(acts2[..k]);
      assert u + [acts1[n].cmd] == v + [acts2[k].cmd];
      assert u == v && acts1[n].cmd == acts2[k].cmd by {
        assert (u + [acts1[n].cmd])[|u|] == acts1[n].cmd && (v + [acts2[k].cmd])[|v|] == acts2[k].cmd;
        assert u == (u + [acts1[n].cmd])[..|u|] && v == (v + [acts2[k].cmd])[..|v|];
      }
      BreakerOnlyThinsOut(b, c, acts1[..n], acts2[..k]);
      StepAhead(Run(b, acts1[..n]), Run(c, acts2[..k]), acts1[n].cmd);
    }
  }

  lemma StepAhead(b: Broker, c: Broker, cmd: Cmd)
    requires Ahead(b, c) && !c.cfg.livelockEnabled && (cmd.Broadcast? ==> Distinct(cmd.order))
    ensures Ahead(Next(b, Do(cmd)), Next(c, Do(cmd))) && Next(c, Do(cmd)).cfg == c.cfg
  {
    CommandQuieter(b, c, cmd);
    SameCommandSameEffect(b, c, cmd);
    CommandKeepsConfig(c, cmd);
    hide Exec, Quieter, SameStore;
  }
}
