// When the livelock breaker acts (internal/broker/broker.go, internal/broker/livelock.go):
// under every configuration, exactly if it is enabled. A max_chain of zero or less does not
// turn it off.
module Suppression {
  import opened Types
  import opened Inboxes
  import opened Livelock
  import opened Pushers
  import opened BrokerModel
  import opened Invariants
  import opened Independence
  import opened Effects
  import Conservation
  import Observed

  // ---- Some history is a livelock -----------------------------------------------------

  // Equal bodies, all said at the same moment.
  function Same(o: Obs, n: nat): (h: seq<Obs>)
    ensures |h| == n
  {
    seq(n, _ => o)
  }

  lemma SameTrips(o: Obs, n: nat, maxChain: int, resetIdle: Duration)
    requires maxChain > 0 && resetIdle > 0 && n >= maxChain + 2
    ensures Trips(Same(o, n), maxChain, resetIdle)
  {
    var h := Same(o, n);
    forall i | n - 1 - maxChain <= i < n ensures Echo(h, i, resetIdle) {
      assert Connected(h, i - 1, i, resetIdle);
    }
  }

  // For each message there are histories under which it is held back, exactly if the
  // breaker is enabled.
  lemma SuppressesIffEnabled(raw: Config, m: Message)
    ensures (exists h: map<string, seq<Obs>> :: Suppressed(raw.WithDefaults(), h, m)) <==> raw.livelockEnabled
  {
    var cfg := raw.WithDefaults();
    if raw.livelockEnabled {
      var h := Same(Obs(0, ""), cfg.livelockMaxChain + 2);
      SameTrips(Obs(0, ""), |h|, cfg.livelockMaxChain, cfg.livelockResetIdle);
      assert Suppressed(cfg, map[PairKey(m.from, m.to) := h], m);
    }
  }

  // ---- And some run gets there ---------------------------------------------------------

  // An ordinary message for a subscribed session of which its pusher is handed nothing.
  ghost predicate KeptBack(b: Broker, cmd: Cmd) {
    && cmd.Send? && cmd.msg.kind == KIND_MESSAGE && cmd.msg.to in b.sessions && cmd.msg.to in b.pushers
    && Exec(b, cmd).state.pool == b.pool
  }

  function Nag(now: Time): Cmd {
    Send(Message("", "x", "s", "hi", 0, 0, "", false, KIND_MESSAGE, ""), "m", now, now)
  }

  // Session s registers, subscribes, and is told the same thing n times.
  function Nagging(now: Time, n: nat): seq<Action> {
    if n == 0 then [Do(Register(now, "s", "p")), Do(Subscribe("s"))]
    else Nagging(now, n - 1) + [Do(Nag(now))]
  }

  ghost predicate Nagged(b: Broker, cfg: Settings, now: Time, n: nat) {
    && b.cfg == cfg && b.clock == now && "s" in b.sessions && "s" in b.pushers
    && HistoryOf(b.histories, PairKey("x", "s")) == Same(Obs(now, NormalizeBody("hi")), n)
  }

  lemma OneMoreNag(b: Broker, cfg: Settings, now: Time, n: nat)
    requires Nagged(b, cfg, now, n) && cfg.livelockEnabled
    ensures Admissible(b, Nag(now)) && Nagged(Exec(b, Nag(now)).state, cfg, now, n + 1)
  {
    hide PairKey, NormalizeBody, Trips, Enqueued, Hand;
    var o := Obs(now, NormalizeBody("hi"));
    assert Same(o, n) + [o] == Same(o, n + 1);
  }

  lemma FirstSession(cfg: Settings, now: Time)
    ensures var b, a := Init(cfg, now), Do(Register(now, "s", "p"));
            var c := Next(b, a);
            && Possible(b, a) && c.cfg == cfg && c.clock == now && "s" in c.sessions
            && c.histories == map[] && c.pushers == map[] && c.pool == []
  {
  }

  lemma FirstSubscription(b: Broker)
    requires b.pushers == map[] && b.pool == []
    ensures var a := Do(Subscribe("s"));
            var c := Next(b, a);
            && Possible(b, a) && c == b.(pool := c.pool, pushers := c.pushers) && "s" in c.pushers
  {
  }

  lemma NaggingStarts(cfg: Settings, now: Time)
    ensures var b := Init(cfg, now); BrokerModel.IsRun(b, Nagging(now, 0)) && Nagged(Run(b, Nagging(now, 0)), cfg, now, 0)
  {
    hide PairKey, NormalizeBody, Next, Possible, Run, BrokerModel.IsRun;
    var b, a1, a2 := Init(cfg, now), Do(Register(now, "s", "p")), Do(Subscribe("s"));
    FirstSession(cfg, now);
    FirstSubscription(Next(b, a1));
    EmptyBrokerRun(b);
    RunSnoc(b, [], a1);
    RunSnoc(b, [a1], a2);
    assert [] + [a1] == [a1] && [a1] + [a2] == Nagging(now, 0);
  }

  lemma {:induction false} NaggingRuns(cfg: Settings, now: Time, n: nat)
    requires cfg.livelockEnabled
    ensures var b := Init(cfg, now); BrokerModel.IsRun(b, Nagging(now, n)) && Nagged(Run(b, Nagging(now, n)), cfg, now, n)
  {
    if n == 0 {
      NaggingStarts(cfg, now);
    } else {
      NaggingRuns(cfg, now, n - 1);
      var b := Init(cfg, now);
      OneMoreNag(Run(b, Nagging(now, n - 1)), cfg, now, n - 1);
      RunSnoc(b, Nagging(now, n - 1), Do(Nag(now)));
    }
    hide Exec, Nagged;
  }

  lemma NagIsKeptBack(b: Broker, cfg: Settings, now: Time)
    requires Nagged(b, cfg, now, cfg.livelockMaxChain + 1) && cfg.livelockEnabled
    ensures Admissible(b, Nag(now)) && KeptBack(b, Nag(now))
  {
    hide PairKey, NormalizeBody, Trips, Enqueued, Hand;
    var o, n := Obs(now, NormalizeBody("hi")), cfg.livelockMaxChain + 1;
    assert Same(o, n) + [o] == Same(o, n + 1);
    SameTrips(o, n + 1, cfg.livelockMaxChain, cfg.livelockResetIdle);
  }

  lemma DisabledHandsOver(b: Broker, cmd: Cmd)
    requires PushersOwned(b) && !b.cfg.livelockEnabled
    ensures !KeptBack(b, cmd)
  {
    hide Sound, Active, Enqueued;
    if cmd.Send? && cmd.msg.to in b.pushers {
      var p, ev := b.pool[b.pushers[cmd.msg.to]], MessageEvent(Stamped(b.cfg, cmd.msg, cmd.msgId, cmd.at));
      assert |Hand(p, ev).handed| == |p.handed| + 1;
      hide Hand;
    }
  }

  // Whatever the configuration, also with a max_chain of zero or less: some run of the
  // broker gets to the point where an ordinary message for a subscribed session is not
  // pushed, exactly if the breaker is enabled.
  lemma BreakerActsIffEnabled(raw: Config, now: Time)
    ensures var start := Init(raw.WithDefaults(), now);
            (exists acts, cmd :: BrokerModel.IsRun(start, acts) && Admissible(Run(start, acts), cmd) && KeptBack(Run(start, acts), cmd))
            <==> raw.livelockEnabled
  {
    var cfg: Settings := raw.WithDefaults();
    var start := Init(cfg, now);
    hide Run, BrokerModel.IsRun, Admissible, KeptBack;
    if raw.livelockEnabled {
      var n := cfg.livelockMaxChain + 1;
      NaggingRuns(cfg, now, n);
      NagIsKeptBack(Run(start, Nagging(now, n)), cfg, now);
    } else {
      forall acts, cmd | BrokerModel.IsRun(start, acts) ensures !KeptBack(Run(start, acts), cmd) {
        InitInvariant(cfg, now);
        RunKeepsInvariant(start, acts);
        DisabledHandsOver(Run(start, acts), cmd);
      }
    }
  }

  // ---- What the breaker goes by ------------------------------------------------------------

  predicate Between(msg: Message, x: Id, y: Id) { (msg.from == x && msg.to == y) || (msg.from == y && msg.to == x) }

  // What x and y have said to each other, in either direction: the ordinary messages that
  // were accepted, each with the time of the breaker's clock reading.
  ghost function Said(b: Broker, acts: seq<Action>, x: Id, y: Id): seq<Obs> {
    if acts == [] then []
    else
      var n := |acts| - 1;
      Said(b, acts[..n], x, y) +
      match acts[n]
      case Do(Send(msg, _, _, tripAt)) =>
        if msg.kind == "" && msg.to in Run(b, acts[..n]).sessions && Between(msg, x, y) then [Obs(tripAt, NormalizeBody(msg.content))]
        else []
      case _ => []
  }

  predicate NulFree(acts: seq<Action>) {
    forall j :: 0 <= j < |acts| && acts[j].Do? && acts[j].cmd.Send? ==> '\0' !in acts[j].cmd.msg.from && '\0' !in acts[j].cmd.msg.to
  }

  lemma SendHistories(b: Broker, msg: Message, id: Id, at: Time, tripAt: Time)
    ensures DoSend(b, msg, id, at, tripAt).state.histories ==
            if msg.kind == "" && msg.to in b.sessions && b.cfg.livelockEnabled then
              Recorded(b.histories, PairKey(msg.from, msg.to), Obs(tripAt, NormalizeBody(msg.content)))
            else b.histories
  {
    hide PairKey, NormalizeBody, Recorded, Trips, Enqueued, Hand;
  }

  lemma HistoriesAfter(b: Broker, a: Action)
    requires Possible(b, a)
    ensures Next(b, a).cfg == b.cfg
    ensures Next(b, a).histories ==
            match a
            case Do(Send(msg, id, at, tripAt)) =>
              if msg.kind == "" && msg.to in b.sessions && b.cfg.livelockEnabled then
                Recorded(b.histories, PairKey(msg.from, msg.to), Obs(tripAt, NormalizeBody(msg.content)))
              else b.histories
            case _ => b.histories
  {
    Conservation.ConfigStays(b, a);
    if a.Do? {
      match a.cmd
      case Broadcast(now, from, content, order, stamps, end) =>
        BroadcastEffect(b, now, from, content, order, stamps, end);
        ChargedKeys(b, from, now);
        hide DoBroadcast, Charged, HasToken;
      case Reap(now, order) =>
        ReapEffect(b, now, order);
        hide DoReap;
      case Send(msg, id, at, tripAt) =>
        SendHistories(b, msg, id, at, tripAt);
        hide DoSend, Recorded, PairKey, NormalizeBody;
      case _ =>
    }
  }

  // With the breaker enabled and ids free of NUL, a pair's history is exactly what the two
  // have said to each other in the whole run, whatever else happened.
  lemma {:induction false} HistoryIsWhatWasSaid(cfg: Settings, start: Time, acts: seq<Action>, x: Id, y: Id)
    requires BrokerModel.IsRun(Init(cfg, start), acts) && cfg.livelockEnabled && NulFree(acts) && '\0' !in x && '\0' !in y
    ensures var b := Run(Init(cfg, start), acts);
            b.cfg == cfg && HistoryOf(b.histories, PairKey(x, y)) == Said(Init(cfg, start), acts, x, y)
  {
    var b := Init(cfg, start);
    hide PairKey, NormalizeBody, Next, Possible;
    if acts != [] {
      var n := |acts| - 1;
      HistoryIsWhatWasSaid(cfg, start, acts[..n], x, y);
      HistoriesAfter(Run(b, acts[..n]), acts[n]);
      if acts[n].Do? && acts[n].cmd.Send? {
        var msg := acts[n].cmd.msg;
        PairKeyIdentifiesPair(msg.from, msg.to, x, y);
      }
    }
  }

  // So over any run the breaker keeps an ordinary message for a registered session from being
  // pushed exactly if what the two have said to each other, this message included, is a
  // livelock.
  lemma HeldBackIffLivelock(cfg: Settings, start: Time, acts: seq<Action>, msg: Message, id: Id, at: Time, tripAt: Time)
    requires var all := acts + [Do(Send(msg, id, at, tripAt))];
             BrokerModel.IsRun(Init(cfg, start), all) && NulFree(all)
    requires msg.kind == "" && msg.to in Run(Init(cfg, start), acts).sessions
    ensures var all := acts + [Do(Send(msg, id, at, tripAt))];
            Observed.HeldBack(Run(Init(cfg, start), all), msg) <==>
            cfg.livelockEnabled && Trips(Said(Init(cfg, start), all, msg.from, msg.to), cfg.livelockMaxChain, cfg.livelockResetIdle)
  {
    var b, all := Init(cfg, start), acts + [Do(Send(msg, id, at, tripAt))];
    Conservation.EvictedByOverflow(b, all, "");
    assert all[|acts|].cmd.msg == msg;
    if cfg.livelockEnabled { HistoryIsWhatWasSaid(cfg, start, all, msg.from, msg.to); }
    hide PairKey, NormalizeBody, Trips, Run, BrokerModel.IsRun, Said;
  }
}
