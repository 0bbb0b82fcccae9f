// The broker's loop-private state and the commands the loop executes on it
// (internal/broker/broker.go), on values. Clock readings, fresh ids and map
// iteration orders are part of a command: they are what the loop observes while it
// executes it. The livelock state is the history of each session pair, and the
// token buckets are the eager ones.
module BrokerModel {
  import opened Types
  import opened Inboxes
  import opened TokenBuckets
  import opened Livelock
  import opened Pushers

  datatype Entry = Entry(session: Session, inbox: seq<Message>, bucket: LiveBucket)

  datatype Broker = Broker(
    cfg: Settings,
    sessions: map<Id, Entry>,
    pushers: map<Id, nat>,              // session id -> its active pusher, an index of pool
    pool: seq<PusherState>,             // every pusher ever started
    histories: map<string, seq<Obs>>,   // pair key -> what the pair has said
    clock: Time)                        // the latest clock reading

  function Init(cfg: Settings, now: Time): Broker {
    Broker(cfg, map[], map[], [], map[], now)
  }

  // An id and a creation time given to one broadcast copy.
  datatype Stamp = Stamp(id: Id, at: Time)

  datatype Cmd =
    | Register(now: Time, id: Id, path: string)
    | Touch(now: Time, id: Id)
    | Unregister(id: Id)
    | ListPeers(now: Time, id: Id)
    | Lookup(id: Id)
    | Send(msg: Message, msgId: Id, at: Time, tripAt: Time)
    | Broadcast(now: Time, id: Id, content: string, order: seq<Id>, stamps: map<Id, Stamp>, end: Time)
    | Poll(id: Id)
    | Subscribe(id: Id)
    | Cancel(id: Id, pid: nat)
    | Reap(now: Time, order: seq<Id>)

  datatype Reply =
    | Done
    | Registered(session: Session)
    | Peers(peers: map<Id, Session>)
    | Found(found: Option<Session>)
    | SentAs(msgId: Id)
    | UnknownSession
    | Fanned(n: nat)
    | RateLimited
    | Polled(msgs: seq<Message>)
    | Subscribed(pid: nat)

  datatype Result = Result(state: Broker, reply: Reply)

  // ---- Pieces of the loop -----------------------------------------------------

  ghost function HandTo(pool: seq<PusherState>, pid: nat, ev: Event): seq<PusherState> {
    if pid < |pool| then pool[pid := Hand(pool[pid], ev)] else pool
  }

  ghost function StopAt(pool: seq<PusherState>, pid: nat): seq<PusherState> {
    if pid < |pool| then pool[pid := Stopped(pool[pid])] else pool
  }

  ghost function Deliver(b: Broker, id: Id, ev: Event): Broker {
    if id in b.pushers then b.(pool := HandTo(b.pool, b.pushers[id], ev)) else b
  }

  ghost predicate ListensAs(pushers: map<Id, nat>, exclude: Id, pid: nat) {
    exists id :: id in pushers && id != exclude && pushers[id] == pid
  }

  ghost function NotifyPeers(b: Broker, exclude: Id, ev: Event): Broker {
    b.(pool := seq(|b.pool|, i requires 0 <= i < |b.pool| =>
         if ListensAs(b.pushers, exclude, i) then Hand(b.pool[i], ev) else b.pool[i]))
  }

  ghost function DropPusher(b: Broker, id: Id): Broker {
    if id in b.pushers then b.(pool := StopAt(b.pool, b.pushers[id]), pushers := b.pushers - {id}) else b
  }

  // What unregistering and reaping have in common.
  ghost function RemoveSession(b: Broker, id: Id): Broker {
    NotifyPeers(DropPusher(b.(sessions := b.sessions - {id}), id), id, PeerLeft(id))
  }

  function Stamped(cfg: Settings, msg: Message, id: Id, at: Time): Message {
    msg.(id := id, createdAt := at, ttl := if msg.ttl <= 0 then cfg.messageTTL else msg.ttl)
  }

  function WithInbox(b: Broker, id: Id, m: Message): Broker
    requires id in b.sessions
  {
    b.(sessions := b.sessions[id := b.sessions[id].(inbox := Enqueued(b.sessions[id].inbox, m, b.cfg.maxInboxSize))])
  }

  function Breaker(cfg: Settings, histories: map<string, seq<Obs>>, m: Message, now: Time): map<string, seq<Obs>> {
    if cfg.livelockEnabled then Recorded(histories, PairKey(m.from, m.to), Obs(now, NormalizeBody(m.content))) else histories
  }

  ghost predicate Suppressed(cfg: Settings, histories: map<string, seq<Obs>>, m: Message) {
    cfg.livelockEnabled && Trips(HistoryOf(histories, PairKey(m.from, m.to)), cfg.livelockMaxChain, cfg.livelockResetIdle)
  }

  function WithBucketFor(b: Broker, from: Id, now: Time): Broker {
    if from in b.sessions then b
    else b.(sessions := b.sessions[from := Entry(BLANK_SESSION, [], Full(b.cfg.broadcastBurst, b.cfg.broadcastRefill, now))])
  }

  function StampFor(stamps: map<Id, Stamp>, id: Id): Stamp {
    if id in stamps then stamps[id] else Stamp("", ZERO_TIME)
  }

  // The copy of a broadcast that goes to one recipient.
  function Copy(cfg: Settings, from: Id, content: string, to: Id, st: Stamp): Message {
    Stamped(cfg, Message("", from, to, content, ZERO_TIME, 0, "", false, KIND_MESSAGE, ""), st.id, st.at)
  }

  // fanout's loop body.
  ghost function FanTo(b: Broker, from: Id, content: string, to: Id, st: Stamp): Broker {
    if to == from || to !in b.sessions then b
    else
      var m := Copy(b.cfg, from, content, to, st);
      Deliver(WithInbox(b, to, m), to, MessageEvent(m))
  }

  ghost function Fanout(b: Broker, from: Id, content: string, order: seq<Id>, stamps: map<Id, Stamp>): Broker {
    if order == [] then b
    else
      var n := |order| - 1;
      FanTo(Fanout(b, from, content, order[..n], stamps), from, content, order[n], StampFor(stamps, order[n]))
  }

  function Others(order: seq<Id>, from: Id): nat {
    if order == [] then 0
    else Others(order[..|order| - 1], from) + if order[|order| - 1] == from then 0 else 1
  }

  // reap's first loop.
  ghost function ReapOne(b: Broker, now: Time, id: Id): Broker {
    if id in b.sessions && b.sessions[id].session.IsStaleAt(now, b.cfg.sessionTTL) then RemoveSession(b, id) else b
  }

  ghost function ReapEach(b: Broker, now: Time, order: seq<Id>): Broker {
    if order == [] then b
    else ReapOne(ReapEach(b, now, order[..|order| - 1]), now, order[|order| - 1])
  }

  function Expire(sessions: map<Id, Entry>, now: Time): map<Id, Entry> {
    map id | id in sessions :: sessions[id].(inbox := Unexpired(sessions[id].inbox, now))
  }

  function VisiblePeers(b: Broker, caller: Id, now: Time): map<Id, Session> {
    map id | id in b.sessions && id != caller && !b.sessions[id].session.IsStaleAt(now, b.cfg.sessionTTL)
      :: b.sessions[id].session
  }

  // ---- Commands -----------------------------------------------------------------

  ghost function DoRegister(b: Broker, now: Time, id: Id, path: string): Result {
    var s := Session(id, path, now, now);
    var entry := Entry(s, [], Full(b.cfg.broadcastBurst, b.cfg.broadcastRefill, now));
    Result(NotifyPeers(b.(sessions := b.sessions[id := entry], clock := now), id, PeerJoined(s)), Registered(s))
  }

  ghost function DoSend(b: Broker, msg: Message, id: Id, at: Time, tripAt: Time): Result {
    var m := Stamped(b.cfg, msg, id, at);
    if m.to !in b.sessions then Result(b.(clock := at), UnknownSession)
    else if m.kind != KIND_MESSAGE then Result(Deliver(b.(clock := at), m.to, MessageEvent(m)), SentAs(id))
    else
      var histories := Breaker(b.cfg, b.histories, m, tripAt);
      var b1 := WithInbox(b, m.to, m).(histories := histories, clock := tripAt);
      Result(if Suppressed(b.cfg, histories, m) then b1 else Deliver(b1, m.to, MessageEvent(m)), SentAs(id))
  }

  ghost function DoBroadcast(b: Broker, now: Time, from: Id, content: string, order: seq<Id>, stamps: map<Id, Stamp>, end: Time): Result {
    var b1 := WithBucketFor(b, from, now);
    var e := b1.sessions[from];
    var b2 := b1.(sessions := b1.sessions[from := e.(bucket := AfterTake(e.bucket, now))], clock := now);
    if Grants(e.bucket, now) then
      Result(Fanout(b2, from, content, order, stamps).(clock := end), Fanned(Others(order, from)))
    else Result(b2, RateLimited)
  }

  ghost function DoPoll(b: Broker, id: Id): Result {
    if id !in b.sessions then Result(b, UnknownSession)
    else Result(b.(sessions := b.sessions[id := b.sessions[id].(inbox := [])]), Polled(b.sessions[id].inbox))
  }

  // A second subscription stops the first and takes its place in the map.
  ghost function DoSubscribe(b: Broker, id: Id): Result {
    var d := DropPusher(b, id);
    Result(d.(pool := d.pool + [New(id, b.cfg.maxInboxSize)], pushers := d.pushers[id := |d.pool|]), Subscribed(|d.pool|))
  }

  ghost function DoCancel(b: Broker, id: Id, pid: nat): Result {
    Result(if id in b.pushers && b.pushers[id] == pid then DropPusher(b, id) else b, Done)
  }

  ghost function DoReap(b: Broker, now: Time, order: seq<Id>): Result {
    var b1 := ReapEach(b.(clock := now), now, order);
    Result(b1.(sessions := Expire(b1.sessions, now)), Done)
  }

  ghost function Exec(b: Broker, cmd: Cmd): Result {
    match cmd
    case Register(now, id, path) => DoRegister(b, now, id, path)
    case Touch(now, id) =>
      Result((if id in b.sessions
              then b.(sessions := b.sessions[id := b.sessions[id].(session := b.sessions[id].session.(lastSeen := now))])
              else b).(clock := now), Done)
    case Unregister(id) => Result(if id in b.sessions then RemoveSession(b, id) else b, Done)
    case ListPeers(now, id) => Result(b.(clock := now), Peers(VisiblePeers(b, id, now)))
    case Lookup(id) => Result(b, Found(if id in b.sessions then Some(b.sessions[id].session) else None))
    case Send(msg, id, at, tripAt) => DoSend(b, msg, id, at, tripAt)
    case Broadcast(now, from, content, order, stamps, end) => DoBroadcast(b, now, from, content, order, stamps, end)
    case Poll(id) => DoPoll(b, id)
    case Subscribe(id) => DoSubscribe(b, id)
    case Cancel(id, pid) => DoCancel(b, id, pid)
    case Reap(now, order) => DoReap(b, now, order)
  }

  // A map iteration order: every key once.
  ghost predicate IsOrder(order: seq<Id>, keys: set<Id>) {
    && (forall id :: id in order <==> id in keys)
    && (forall i, j :: 0 <= i < j < |order| ==> order[i] != order[j])
  }

  // What the loop can observe: clock readings never go back, a new session id is
  // unused, and a range over a map visits every key once.
  ghost predicate Admissible(b: Broker, cmd: Cmd) {
    match cmd
    case Register(now, id, path) => b.clock <= now && id !in b.sessions && id != ""
    case Touch(now, id) => b.clock <= now
    case ListPeers(now, id) => b.clock <= now
    case Send(msg, id, at, tripAt) => b.clock <= at <= tripAt
    case Broadcast(now, from, content, order, stamps, end) =>
      && b.clock <= now <= end
      && IsOrder(order, b.sessions.Keys + {from})
      && (forall id :: id in order ==> id in stamps && now <= stamps[id].at <= end)
    case Reap(now, order) => b.clock <= now && IsOrder(order, b.sessions.Keys)
    case _ => true
  }

  // ---- Runs ------------------------------------------------------------------------

  // Between commands the pushers and their subscribers take steps of their own.
  datatype Action = Do(cmd: Cmd) | Push(pid: nat, step: Step)

  ghost predicate Possible(b: Broker, a: Action) {
    match a
    case Do(cmd) => Admissible(b, cmd)
    case Push(pid, step) => pid < |b.pool| && Enabled(b.pool[pid], step)
  }

  ghost function Next(b: Broker, a: Action): Broker {
    match a
    case Do(cmd) => Exec(b, cmd).state
    case Push(pid, step) =>
      if pid < |b.pool| && Enabled(b.pool[pid], step) then b.(pool := b.pool[pid := After(b.pool[pid], step)]) else b
  }

  ghost function Run(b: Broker, acts: seq<Action>): Broker {
    if acts == [] then b else Next(Run(b, acts[..|acts| - 1]), acts[|acts| - 1])
  }

  ghost predicate IsRun(b: Broker, acts: seq<Action>) {
    acts == [] || (IsRun(b, acts[..|acts| - 1]) && Possible(Run(b, acts[..|acts| - 1]), acts[|acts| - 1]))
  }

  lemma RunSnoc(b: Broker, acts: seq<Action>, a: Action)
    ensures Run(b, acts + [a]) == Next(Run(b, acts), a)
    ensures IsRun(b, acts + [a]) <==> IsRun(b, acts) && Possible(Run(b, acts), a)
  {
    assert (acts + [a])[..|acts|] == acts;
  }

  lemma {:induction false} PrefixIsRun(b: Broker, acts: seq<Action>, k: nat)
    requires IsRun(b, acts) && k <= |acts|
    ensures IsRun(b, acts[..k])
    ensures k < |acts| ==> Possible(Run(b, acts[..k]), acts[k]) && Run(b, acts[..k + 1]) == Next(Run(b, acts[..k]), acts[k])
    decreases |acts|
  {
    hide Next, Possible;
    if k == |acts| {
      assert acts[..k] == acts;
    } else {
      var n := |acts| - 1;
      if k < n {
        PrefixIsRun(b, acts[..n], k);
        assert acts[..n][..k] == acts[..k] && acts[..n][..k + 1] == acts[..k + 1];
      } else {
        assert acts[..k + 1] == acts;
      }
    }
  }
}
