// The shims around the broker (internal/mcp/server.go, internal/mcp/tools.go): what a shim
// sends on behalf of its host, what it makes of the events of its subscription, and the
// system of any number of shims around one broker.
module Relay {
  import opened Types
  import opened Ledgers
  import opened Inboxes
  import opened TokenBuckets
  import opened Pushers
  import opened BrokerModel
  import opened Effects
  import opened Invariants
  import Conservation

  // ---- From events to frames --------------------------------------------------------

  // What the shim writes to its host.
  datatype Frame =
    | Channel(content: string, meta: map<string, string>)
    | Permission(requestId: Id, behavior: string)

  function ChannelMeta(msg: Message): (meta: map<string, string>)
    ensures "from" in meta && meta["from"] == msg.from && "id" in meta && meta["id"] == msg.id
    ensures "in_reply_to" in meta <==> msg.inReplyTo != ""
    ensures "in_reply_to" in meta ==> meta["in_reply_to"] == msg.inReplyTo
    ensures "expects_reply" in meta <==> msg.expectsReply
    ensures "expects_reply" in meta ==> meta["expects_reply"] == "true"
    ensures "kind" in meta <==> msg.kind == KIND_PERMISSION_REQUEST
    ensures "kind" in meta ==> meta["kind"] == KIND_PERMISSION_REQUEST && "request_id" in meta && meta["request_id"] == msg.requestId
    ensures "request_id" in meta ==> "kind" in meta
    ensures meta.Keys <= {"from", "id", "in_reply_to", "expects_reply", "kind", "request_id"}
  {
    var meta := map["from" := msg.from, "id" := msg.id];
    var meta := if msg.inReplyTo != "" then meta["in_reply_to" := msg.inReplyTo] else meta;
    var meta := if msg.expectsReply then meta["expects_reply" := "true"] else meta;
    if msg.kind == KIND_PERMISSION_REQUEST then meta["kind" := KIND_PERMISSION_REQUEST]["request_id" := msg.requestId] else meta
  }

  // eventNotification
  function EventNotification(ev: Event): Option<Frame> {
    match ev
    case MessageEvent(msg) =>
      Some(if msg.kind == KIND_PERMISSION_VERDICT then Permission(msg.requestId, msg.content)
           else Channel(msg.content, ChannelMeta(msg)))
    case _ => None
  }

  // The frames for a series of events, in order.
  function FramesOf(events: seq<Event>): seq<Frame> {
    if events == [] then []
    else
      var n := |events| - 1;
      var f := EventNotification(events[n]);
      FramesOf(events[..n]) + if f.Some? then [f.value] else []
  }

  lemma FramesStep(events: seq<Event>, k: nat)
    requires k < |events|
    ensures FramesOf(events[..k + 1]) ==
            FramesOf(events[..k]) + if EventNotification(events[k]).Some? then [EventNotification(events[k]).value] else []
  {
    assert events[..k + 1][..k] == events[..k];
  }

  // ForwardEvents, for a subscription that ends after `events`, a context that is seen
  // cancelled before event number `until`, and a host that takes `writes` frames before a
  // write fails. The frames written are those of the events before the first of the three
  // ends, in order; an event whose frame could not be written does not count as taken.
  method ForwardEvents(events: seq<Event>, until: nat, writes: nat) returns (written: seq<Frame>, taken: nat)
    ensures taken <= |events| && taken <= until && |written| <= writes
    ensures written == FramesOf(events[..taken])
    ensures taken < |events| && taken < until ==> EventNotification(events[taken]).Some? && |written| == writes
  {
    hide FramesOf;
    written, taken := [], 0;
    assert FramesOf(events[..0]) == [] by { NoFrames(); }
    while taken < |events| && taken < until
      invariant taken <= |events| && taken <= until && |written| <= writes
      invariant written == FramesOf(events[..taken])
    {
      FramesStep(events, taken);
      var frame := EventNotification(events[taken]);
      if frame.Some? {
        if |written| == writes {
          return;
        }
        written := written + [frame.value];
      }
      taken := taken + 1;
    }
  }

  lemma NoFrames()
    ensures FramesOf([]) == []
  {
  }

  // ---- What a shim sends ---------------------------------------------------------------

  const ALLOW := "allow"
  const DENY := "deny"

  datatype SendParams = SendParams(to: Id, content: string, inReplyTo: Id, expectsReply: bool, kind: string, requestId: Id)

  // handleSendMessage
  function SendMessage(to: Id, content: string, inReplyTo: Id, expectsReply: bool): SendParams {
    SendParams(to, content, inReplyTo, expectsReply, KIND_MESSAGE, "")
  }

  // handleRespondPermission; None stands for its invalid-params errors.
  function RespondPermission(to: Id, requestId: Id, behavior: string): (r: Option<SendParams>)
    ensures r.Some? <==> (behavior == ALLOW || behavior == DENY) && to != "" && requestId != ""
    ensures r.Some? ==> r.value.to == to && r.value.requestId == requestId && r.value.content == behavior
                        && r.value.kind == KIND_PERMISSION_VERDICT
  {
    if behavior != ALLOW && behavior != DENY then None
    else if to == "" || requestId == "" then None
    else Some(SendParams(to, behavior, "", false, KIND_PERMISSION_VERDICT, requestId))
  }

  // permissionPrompt
  function PermissionPrompt(tool: string, description: string, preview: string): string {
    "A peer Claude session is asking you to approve a tool call: " + tool
    + (if description != "" then " — " + description else "")
    + (if preview != "" then "\ninput: " + preview else "")
  }

  function PromptTo(peer: Session, requestId: Id, content: string): SendParams {
    SendParams(peer.id, content, "", false, KIND_PERMISSION_REQUEST, requestId)
  }

  // handlePermissionRequest, for the peers that list_peers returned: one request to each,
  // in their order, and none at all for a dialog without an id.
  method HandlePermissionRequest(requestId: Id, tool: string, description: string, preview: string, peers: seq<Session>)
    returns (sends: seq<SendParams>)
    ensures sends == if requestId == "" then [] else Prompts(peers, requestId, PermissionPrompt(tool, description, preview))
    ensures |sends| == (if requestId == "" then 0 else |peers|)
    ensures forall i :: 0 <= i < |sends| ==>
              && sends[i].to == peers[i].id && sends[i].kind == "permission_request" && sends[i].requestId == requestId
              && sends[i].content == PermissionPrompt(tool, description, preview)
  {
    sends := [];
    if requestId == "" {
      return;
    }
    var content := PermissionPrompt(tool, description, preview);
    for i := 0 to |peers|
      invariant sends == Prompts(peers[..i], requestId, content)
    {
      sends := sends + [PromptTo(peers[i], requestId, content)];
    }
    assert peers[..|peers|] == peers;
  }

  function Prompts(peers: seq<Session>, requestId: Id, content: string): seq<SendParams> {
    seq(|peers|, i requires 0 <= i < |peers| => PromptTo(peers[i], requestId, content))
  }

  // doSend, for the request frame of a shim.
  function Outgoing(session: Id, p: SendParams): Message {
    Message("", session, p.to, p.content, ZERO_TIME, 0, p.inReplyTo, p.expectsReply, p.kind, p.requestId)
  }

  // What respond_permission was called with is what the host of the addressed session is
  // told, and nothing that send_message can say looks like it.
  lemma VerdictArrives(cfg: Settings, session: Id, to: Id, requestId: Id, behavior: string, id: Id, at: Time)
    requires RespondPermission(to, requestId, behavior).Some?
    ensures var m := Stamped(cfg, Outgoing(session, RespondPermission(to, requestId, behavior).value), id, at);
            m.from == session && m.to == to && EventNotification(MessageEvent(m)) == Some(Permission(requestId, behavior))
    ensures forall content, inReplyTo, expectsReply ::
              var m := Stamped(cfg, Outgoing(session, SendMessage(to, content, inReplyTo, expectsReply)), id, at);
              EventNotification(MessageEvent(m)) == Some(Channel(content, ChannelMeta(m))) && "kind" !in ChannelMeta(m)
  {
  }

  // What send_message was called with is what the host of the addressed session is shown: the
  // text, who it comes from, and the thread it belongs to.
  lemma SayArrives(cfg: Settings, session: Id, to: Id, content: string, inReplyTo: Id, expectsReply: bool, id: Id, at: Time)
    ensures var m := Stamped(cfg, Outgoing(session, SendMessage(to, content, inReplyTo, expectsReply)), id, at);
            && m.to == to
            && exists meta :: EventNotification(MessageEvent(m)) == Some(Channel(content, meta)) && AsSaid(meta, session, id, inReplyTo, expectsReply)
  {
    var m := Stamped(cfg, Outgoing(session, SendMessage(to, content, inReplyTo, expectsReply)), id, at);
    assert AsSaid(ChannelMeta(m), session, id, inReplyTo, expectsReply);
  }

  predicate AsSaid(meta: map<string, string>, from: Id, id: Id, inReplyTo: Id, expectsReply: bool) {
    && meta.Keys == {"from", "id"} + (if inReplyTo != "" then {"in_reply_to"} else {}) + (if expectsReply then {"expects_reply"} else {})
    && meta["from"] == from && meta["id"] == id
    && (inReplyTo != "" ==> meta["in_reply_to"] == inReplyTo)
    && (expectsReply ==> meta["expects_reply"] == "true")
  }

  // A dialog of one host shows up at each peer with the request id to answer it by.
  lemma PromptArrives(cfg: Settings, session: Id, peer: Session, requestId: Id, content: string, id: Id, at: Time)
    ensures var m := Stamped(cfg, Outgoing(session, PromptTo(peer, requestId, content)), id, at);
            && m.to == peer.id
            && EventNotification(MessageEvent(m)) ==
               Some(Channel(content, map["from" := session, "id" := id, "kind" := "permission_request", "request_id" := requestId]))
  {
  }

  // ---- The system -------------------------------------------------------------------------

  // A dialog of the host whose relay waits for the list of peers.
  datatype Dialog = Dialog(requestId: Id, content: string)

  datatype Shim = Shim(
    session: Id,
    sub: Option<nat>,          // its subscription's pusher
    taken: nat,                // how many of the events streamed to it it has forwarded
    emitted: seq<Frame>,
    dialog: Option<Dialog>,
    outbox: seq<SendParams>)   // the sends that the host line in hand still has to make

  // What hosts and shims did, in order.
  datatype Happening =
    | Prompted(session: Id, requestId: Id)                              // a host opened a dialog
    | Responded(session: Id, to: Id, requestId: Id, behavior: string)   // respond_permission passed its checks
    | Wrote(session: Id, frame: Frame)

  datatype World = World(broker: Broker, shims: seq<Shim>, log: seq<Happening>)

  function Start(cfg: Settings, now: Time): World {
    World(Init(cfg, now), [], [])
  }

  datatype Step =
    | Join(now: Time, id: Id, path: string)      // a shim registers
    | Listen(i: nat)                             // and subscribes
    | Prompt(i: nat, requestId: Id, content: string)
    | Listed(i: nat, now: Time, order: seq<Id>)  // list_peers answered, in some order
    | ListFails(i: nat)
    | Respond(i: nat, to: Id, requestId: Id, behavior: string)
    | Say(i: nat, to: Id, content: string, inReplyTo: Id, expectsReply: bool)
    | Rpc(i: nat, msgId: Id, at: Time, tripAt: Time)
    | RpcFails(i: nat)
    | Forward(i: nat)                            // one more event reaches the host
    | Other(a: Action)                           // anything else that goes on in the daemon

  // A shim reads its next host line only when it is done with the last.
  predicate Free(sh: Shim) { sh.outbox == [] && sh.dialog.None? }

  ghost predicate Can(w: World, st: Step) {
    match st
    case Join(now, id, path) => Admissible(w.broker, Register(now, id, path))
    case Listen(i) => i < |w.shims| && w.shims[i].sub.None?
    case Prompt(i, _, _) => i < |w.shims| && Free(w.shims[i])
    case Listed(i, now, order) =>
      && i < |w.shims| && w.shims[i].dialog.Some? && Admissible(w.broker, ListPeers(now, w.shims[i].session))
      && IsOrder(order, VisiblePeers(w.broker, w.shims[i].session, now).Keys)
    case ListFails(i) => i < |w.shims| && w.shims[i].dialog.Some?
    case Respond(i, _, _, _) => i < |w.shims| && Free(w.shims[i])
    case Say(i, _, _, _, _) => i < |w.shims| && Free(w.shims[i])
    case Rpc(i, msgId, at, tripAt) =>
      && i < |w.shims| && w.shims[i].outbox != []
      && Admissible(w.broker, Send(Outgoing(w.shims[i].session, w.shims[i].outbox[0]), msgId, at, tripAt))
    case RpcFails(i) => i < |w.shims| && w.shims[i].outbox != []
    case Forward(i) =>
      && i < |w.shims| && w.shims[i].sub.Some? && w.shims[i].sub.value < |w.broker.pool|
      && w.shims[i].taken < |w.broker.pool[w.shims[i].sub.value].received|
    // All clients are shims: nobody else sends.
    case Other(a) => Possible(w.broker, a) && !(a.Do? && a.cmd.Send?)
  }

  function Set(w: World, i: nat, sh: Shim): World
    requires i < |w.shims|
  {
    w.(shims := w.shims[i := sh])
  }

  function Listing(visible: map<Id, Session>, order: seq<Id>): seq<Session> {
    seq(|order|, k requires 0 <= k < |order| => if order[k] in visible then visible[order[k]] else BLANK_SESSION)
  }

  ghost function Apply(w: World, st: Step): World
    requires Can(w, st)
  {
    match st
    case Join(now, id, path) =>
      World(Exec(w.broker, Register(now, id, path)).state, w.shims + [Shim(id, None, 0, [], None, [])], w.log)
    case Listen(i) =>
      Set(w, i, w.shims[i].(sub := Some(|w.broker.pool|))).(broker := Exec(w.broker, Subscribe(w.shims[i].session)).state)
    case Prompt(i, requestId, content) =>
      if requestId == "" then w
      else Set(w, i, w.shims[i].(dialog := Some(Dialog(requestId, content)))).(log := w.log + [Prompted(w.shims[i].session, requestId)])
    case Listed(i, now, order) =>
      var sh := w.shims[i];
      var peers := Listing(VisiblePeers(w.broker, sh.session, now), order);
      Set(w, i, sh.(dialog := None, outbox := Prompts(peers, sh.dialog.value.requestId, sh.dialog.value.content)))
        .(broker := Exec(w.broker, ListPeers(now, sh.session)).state)
    case ListFails(i) => Set(w, i, w.shims[i].(dialog := None))
    case Respond(i, to, requestId, behavior) =>
      var p := RespondPermission(to, requestId, behavior);
      if p.None? then w
      else Set(w, i, w.shims[i].(outbox := [p.value])).(log := w.log + [Responded(w.shims[i].session, to, requestId, behavior)])
    case Say(i, to, content, inReplyTo, expectsReply) =>
      Set(w, i, w.shims[i].(outbox := [SendMessage(to, content, inReplyTo, expectsReply)]))
    case Rpc(i, msgId, at, tripAt) =>
      var sh := w.shims[i];
      Set(w, i, sh.(outbox := sh.outbox[1..])).(broker := Exec(w.broker, Send(Outgoing(sh.session, sh.outbox[0]), msgId, at, tripAt)).state)
    case RpcFails(i) => Set(w, i, w.shims[i].(outbox := w.shims[i].outbox[1..]))
    case Forward(i) =>
      var sh := w.shims[i];
      var f := EventNotification(w.broker.pool[sh.sub.value].received[sh.taken]);
      if f.None? then Set(w, i, sh.(taken := sh.taken + 1))
      else Set(w, i, sh.(taken := sh.taken + 1, emitted := sh.emitted + [f.value])).(log := w.log + [Wrote(sh.session, f.value)])
    case Other(a) => w.(broker := Next(w.broker, a))
  }

  ghost predicate IsTrace(w: World, steps: seq<Step>)
    decreases |steps|
  {
    steps == [] || (Can(w, steps[0]) && IsTrace(Apply(w, steps[0]), steps[1..]))
  }

  ghost function End(w: World, steps: seq<Step>): World
    requires IsTrace(w, steps)
    decreases |steps|
  {
    if steps == [] then w else End(Apply(w, steps[0]), steps[1..])
  }

  // ---- Where handed-over events come from ------------------------------------------------------

  // The events that a command may hand to the pusher of session owner.
  ghost predicate Comes(cfg: Settings, cmd: Cmd, owner: Id, ev: Event) {
    ev.MessageEvent? ==>
      && ev.msg.to == owner
      && match cmd
         case Send(msg, id, at, _) => ev.msg == Stamped(cfg, msg, id, at)
         case Broadcast(_, _, _, _, _, _) => ev.msg.kind == KIND_MESSAGE
         case _ => false
  }

  ghost predicate PusherGrown(cfg: Settings, cmd: Cmd, p: PusherState, q: PusherState) {
    && q.owner == p.owner && q.received == p.received
    && forall ev :: ev in q.handed ==> ev in p.handed || Comes(cfg, cmd, p.owner, ev)
  }

  // c is b after part of a command.
  ghost predicate Grown(cmd: Cmd, b: Broker, c: Broker) {
    && c.cfg == b.cfg && |b.pool| <= |c.pool|
    && (forall pid: nat :: pid < |b.pool| ==> PusherGrown(b.cfg, cmd, b.pool[pid], c.pool[pid]))
    && (forall pid: nat :: |b.pool| <= pid < |c.pool| ==> c.pool[pid].handed == [] && c.pool[pid].received == [])
  }

  lemma GrownMore(cmd: Cmd, b: Broker, c: Broker, d: Broker)
    requires Grown(cmd, b, c) && Grown(cmd, c, d) && |b.pool| == |c.pool| == |d.pool|
    ensures Grown(cmd, b, d)
  {
    hide Comes;
    forall pid: nat | pid < |b.pool| ensures PusherGrown(b.cfg, cmd, b.pool[pid], d.pool[pid]) {
      assert PusherGrown(b.cfg, cmd, b.pool[pid], c.pool[pid]) && PusherGrown(b.cfg, cmd, c.pool[pid], d.pool[pid]);
    }
  }

  lemma HandGrows(cfg: Settings, cmd: Cmd, p: PusherState, ev: Event)
    requires Comes(cfg, cmd, p.owner, ev)
    ensures PusherGrown(cfg, cmd, p, Hand(p, ev))
  {
  }

  lemma PoolGrows(cmd: Cmd, b: Broker, c: Broker)
    requires c.cfg == b.cfg && c.pool == b.pool
    ensures Grown(cmd, b, c)
  {
  }

  lemma DeliverGrows(cmd: Cmd, b: Broker, id: Id, ev: Event)
    requires PushersOwned(b) && Comes(b.cfg, cmd, id, ev)
    ensures Grown(cmd, b, Deliver(b, id, ev))
  {
    hide Comes, Hand, Sound, Active;
    if id in b.pushers { HandGrows(b.cfg, cmd, b.pool[b.pushers[id]], ev); }
  }

  lemma NotifyGrows(cmd: Cmd, b: Broker, id: Id, ev: Event)
    requires !ev.MessageEvent?
    ensures Grown(cmd, b, NotifyPeers(b, id, ev))
  {
    forall pid: nat | pid < |b.pool| { HandGrows(b.cfg, cmd, b.pool[pid], ev); }
    hide Comes, Hand, ListensAs;
  }

  lemma DropGrows(cmd: Cmd, b: Broker, id: Id)
    ensures Grown(cmd, b, DropPusher(b, id))
  {
  }

  lemma RemoveGrows(cmd: Cmd, b: Broker, id: Id)
    ensures Grown(cmd, b, RemoveSession(b, id))
  {
    hide Grown, DropPusher, NotifyPeers;
    var b1 := b.(sessions := b.sessions - {id});
    PoolGrows(cmd, b, b1);
    DropGrows(cmd, b1, id);
    NotifyGrows(cmd, DropPusher(b1, id), id, PeerLeft(id));
    SideEffectsLeaveSessions(b1, id, PeerLeft(id));
    SideEffectsLeaveSessions(DropPusher(b1, id), id, PeerLeft(id));
    GrownMore(cmd, b, b1, DropPusher(b1, id));
    GrownMore(cmd, b, DropPusher(b1, id), RemoveSession(b, id));
  }

  lemma {:induction false} ReapGrows(cmd: Cmd, b: Broker, now: Time, order: seq<Id>)
    ensures Grown(cmd, b, ReapEach(b, now, order))
  {
    hide Grown, RemoveSession;
    if order == [] {
      PoolGrows(cmd, b, b);
    } else {
      var n := |order| - 1;
      var c := ReapEach(b, now, order[..n]);
      ReapGrows(cmd, b, now, order[..n]);
      ReapSessions(b, now, order[..n]);
      ReapSessions(b, now, order);
      if Stale(c, order[n], now) {
        RemoveGrows(cmd, c, order[n]);
        GrownMore(cmd, b, c, ReapEach(b, now, order));
      }
    }
  }

  lemma {:induction false} FanoutGrows(cmd: Cmd, b: Broker, from: Id, content: string, order: seq<Id>, stamps: map<Id, Stamp>)
    requires PushersOwned(b) && cmd.Broadcast?
    ensures Grown(cmd, b, Fanout(b, from, content, order, stamps)) && |Fanout(b, from, content, order, stamps).pool| == |b.pool|
  {
    hide Grown, PushersOwned, Deliver;
    if order == [] {
      PoolGrows(cmd, b, b);
    } else {
      var n := |order| - 1;
      var to, st := order[n], StampFor(stamps, order[n]);
      var c := Fanout(b, from, content, order[..n], stamps);
      FanoutGrows(cmd, b, from, content, order[..n], stamps);
      FanoutKeeps(b, from, content, order[..n], stamps);
      FanToSessions(c, from, content, to, st);
      if to != from && to in c.sessions {
        var m := Copy(c.cfg, from, content, to, st);
        var x := WithInbox(c, to, m);
        SessionsDoNotOwn(c, x.sessions, c.histories, c.clock);
        PoolGrows(cmd, c, x);
        DeliverGrows(cmd, x, to, MessageEvent(m));
        SideEffectsLeaveSessions(x, to, MessageEvent(m));
        GrownMore(cmd, c, x, Deliver(x, to, MessageEvent(m)));
        GrownMore(cmd, b, c, Deliver(x, to, MessageEvent(m)));
      }
    }
  }

  lemma SendGrows(b: Broker, msg: Message, id: Id, at: Time, tripAt: Time)
    requires PushersOwned(b)
    ensures Grown(Send(msg, id, at, tripAt), b, DoSend(b, msg, id, at, tripAt).state)
  {
    hide Grown, PushersOwned, Deliver, Suppressed, Breaker;
    var cmd, m := Send(msg, id, at, tripAt), Stamped(b.cfg, msg, id, at);
    var b0 := b.(clock := at);
    SessionsDoNotOwn(b, b.sessions, b.histories, at);
    PoolGrows(cmd, b, b0);
    DeliverGrows(cmd, b0, m.to, MessageEvent(m));
    SideEffectsLeaveSessions(b0, m.to, MessageEvent(m));
    GrownMore(cmd, b, b0, Deliver(b0, m.to, MessageEvent(m)));
    if m.to in b.sessions {
      var b1 := WithInbox(b, m.to, m).(histories := Breaker(b.cfg, b.histories, m, tripAt), clock := tripAt);
      SessionsDoNotOwn(b, b1.sessions, b1.histories, tripAt);
      PoolGrows(cmd, b, b1);
      DeliverGrows(cmd, b1, m.to, MessageEvent(m));
      SideEffectsLeaveSessions(b1, m.to, MessageEvent(m));
      GrownMore(cmd, b, b1, Deliver(b1, m.to, MessageEvent(m)));
    }
  }

  lemma SubscribeGrows(b: Broker, id: Id)
    ensures Grown(Subscribe(id), b, DoSubscribe(b, id).state)
  {
    DropGrows(Subscribe(id), b, id);
    SideEffectsLeaveSessions(b, id, PeerLeft(id));
    hide Comes, DropPusher;
  }

  lemma ExecGrows(b: Broker, cmd: Cmd)
    requires PushersOwned(b)
    ensures Grown(cmd, b, Exec(b, cmd).state)
  {
    hide Grown, PushersOwned, Deliver, NotifyPeers, DropPusher, RemoveSession, Fanout, ReapEach, AfterTake, DoSend, DoSubscribe;
    var c := Exec(b, cmd).state;
    match cmd
    case Register(now, id, path) =>
      var s := Session(id, path, now, now);
      var b1 := b.(sessions := b.sessions[id := Entry(s, [], Full(b.cfg.broadcastBurst, b.cfg.broadcastRefill, now))], clock := now);
      PoolGrows(cmd, b, b1);
      NotifyGrows(cmd, b1, id, PeerJoined(s));
      SideEffectsLeaveSessions(b1, id, PeerJoined(s));
      GrownMore(cmd, b, b1, c);
    case Unregister(id) =>
      RemoveGrows(cmd, b, id);
      PoolGrows(cmd, b, b);
    case Send(msg, id, at, tripAt) => SendGrows(b, msg, id, at, tripAt);
    case Broadcast(now, from, content, order, stamps, end) => BroadcastGrows(b, now, from, content, order, stamps, end);
    case Subscribe(id) => SubscribeGrows(b, id);
    case Cancel(id, pid) =>
      DropGrows(cmd, b, id);
      PoolGrows(cmd, b, b);
    case Reap(now, order) =>
      var b1 := b.(clock := now);
      PoolGrows(cmd, b, b1);
      ReapGrows(cmd, b1, now, order);
      ReapSessions(b1, now, order);
      GrownMore(cmd, b, b1, ReapEach(b1, now, order));
      PoolGrows(cmd, ReapEach(b1, now, order), c);
      GrownMore(cmd, b, ReapEach(b1, now, order), c);
    case _ => PoolGrows(cmd, b, c);
  }

  lemma BroadcastGrows(b: Broker, now: Time, from: Id, content: string, order: seq<Id>, stamps: map<Id, Stamp>, end: Time)
    requires PushersOwned(b)
    ensures Grown(Broadcast(now, from, content, order, stamps, end), b, DoBroadcast(b, now, from, content, order, stamps, end).state)
  {
    hide Grown, PushersOwned, Fanout, AfterTake, Grants;
    var cmd := Broadcast(now, from, content, order, stamps, end);
    var d := Charged(b, from, now);
    SessionsDoNotOwn(b, d.sessions, b.histories, now);
    PoolGrows(cmd, b, d);
    FanoutGrows(cmd, d, from, content, order, stamps);
    var f := Fanout(d, from, content, order, stamps);
    GrownMore(cmd, b, d, f);
    Conservation.FanoutConfig(d, from, content, order, stamps);
    PoolGrows(cmd, f, f.(clock := end));
    GrownMore(cmd, b, f, f.(clock := end));
  }

  // ---- Who vouches for a permission message -----------------------------------------------

  // A permission message carries what a host or a respond_permission call said before.
  ghost predicate Vouched(log: seq<Happening>, session: Id, p: SendParams) {
    || p.kind == KIND_MESSAGE
    || (p.kind == KIND_PERMISSION_REQUEST && p.requestId != "" && Prompted(session, p.requestId) in log)
    || (p.kind == KIND_PERMISSION_VERDICT && p.requestId != "" && (p.content == ALLOW || p.content == DENY)
        && Responded(session, p.to, p.requestId, p.content) in log)
  }

  ghost predicate EventVouched(log: seq<Happening>, owner: Id, ev: Event) {
    ev.MessageEvent? ==>
      var m := ev.msg;
      m.to == owner && Vouched(log, m.from, SendParams(m.to, m.content, m.inReplyTo, m.expectsReply, m.kind, m.requestId))
  }

  // A permission frame answers a dialog as an earlier respond_permission call addressed to
  // this session said; a permission_request frame names a dialog that its sender's host
  // opened earlier.
  ghost predicate Caused(past: seq<Happening>, h: Happening) {
    match h
    case Prompted(_, requestId) => requestId != ""
    case Responded(_, to, requestId, behavior) => to != "" && requestId != "" && (behavior == ALLOW || behavior == DENY)
    case Wrote(session, Permission(requestId, behavior)) =>
      && requestId != "" && (behavior == ALLOW || behavior == DENY)
      && exists peer: Id :: Responded(peer, session, requestId, behavior) in past
    case Wrote(_, Channel(_, meta)) =>
      "kind" in meta ==>
        && meta["kind"] == KIND_PERMISSION_REQUEST
        && "from" in meta && "request_id" in meta && meta["request_id"] != ""
        && Prompted(meta["from"], meta["request_id"]) in past
  }

  ghost predicate Causal(log: seq<Happening>) {
    forall k :: 0 <= k < |log| ==> Caused(log[..k], log[k])
  }

  ghost predicate PoolVouched(log: seq<Happening>, pool: seq<PusherState>) {
    forall pid: nat, ev :: pid < |pool| && ev in pool[pid].handed ==> EventVouched(log, pool[pid].owner, ev)
  }

  // A shim has forwarded a prefix of what its subscription streamed to it, and everything
  // it still wants to send is vouched for.
  ghost predicate ShimSound(w: World, sh: Shim) {
    && (forall k :: 0 <= k < |sh.outbox| ==> Vouched(w.log, sh.session, sh.outbox[k]))
    && (sh.dialog.Some? ==> sh.dialog.value.requestId != "" && Prompted(sh.session, sh.dialog.value.requestId) in w.log)
    && (forall k :: 0 <= k < |sh.emitted| ==> Wrote(sh.session, sh.emitted[k]) in w.log)
    && match sh.sub
       case None => sh.taken == 0 && sh.emitted == []
       case Some(pid) =>
         && pid < |w.broker.pool| && w.broker.pool[pid].owner == sh.session
         && sh.taken <= |w.broker.pool[pid].received|
         && sh.emitted == FramesOf(w.broker.pool[pid].received[..sh.taken])
  }

  // No permission message ever lies in an inbox.
  ghost predicate OrdinaryInboxes(b: Broker) {
    forall id, m :: m in Conservation.InboxOf(b, id) ==> m.kind == KIND_MESSAGE
  }

  ghost predicate Good(w: World) {
    && PushersOwned(w.broker) && OrdinaryInboxes(w.broker)
    && PoolVouched(w.log, w.broker.pool) && Causal(w.log)
    && forall i :: 0 <= i < |w.shims| ==> ShimSound(w, w.shims[i])
  }

  lemma PoolVouchedStays(log: seq<Happening>, h: Happening, pool: seq<PusherState>)
    requires PoolVouched(log, pool)
    ensures PoolVouched(log + [h], pool)
  {
    forall pid: nat, ev | pid < |pool| && ev in pool[pid].handed ensures EventVouched(log + [h], pool[pid].owner, ev) {
      assert EventVouched(log, pool[pid].owner, ev);
    }
  }

  lemma CausalGrows(log: seq<Happening>, h: Happening)
    requires Causal(log) && Caused(log, h)
    ensures Causal(log + [h])
  {
    hide Caused;
    var g := log + [h];
    forall k | 0 <= k < |g| ensures Caused(g[..k], g[k]) {
      assert g[..k] == log[..k];
      if k == |log| { assert log[..k] == log; }
    }
  }

  // ---- What the daemon's steps keep -----------------------------------------------------------

  lemma PoolStaysVouched(log: seq<Happening>, cmd: Cmd, b: Broker, c: Broker)
    requires PoolVouched(log, b.pool) && Grown(cmd, b, c)
    requires match cmd
             case Send(msg, _, _, _) =>
               Vouched(log, msg.from, SendParams(msg.to, msg.content, msg.inReplyTo, msg.expectsReply, msg.kind, msg.requestId))
             case _ => true
    ensures PoolVouched(log, c.pool)
  {
    hide Vouched;
    forall pid: nat, ev | pid < |c.pool| && ev in c.pool[pid].handed ensures EventVouched(log, c.pool[pid].owner, ev) {
      assert pid < |b.pool|;
      assert PusherGrown(b.cfg, cmd, b.pool[pid], c.pool[pid]);
      if ev in b.pool[pid].handed { assert EventVouched(log, b.pool[pid].owner, ev); }
      else if cmd.Broadcast? && ev.MessageEvent? { OrdinaryIsVouched(log, ev.msg); }
    }
  }

  lemma OrdinaryIsVouched(log: seq<Happening>, m: Message)
    requires m.kind == KIND_MESSAGE
    ensures Vouched(log, m.from, SendParams(m.to, m.content, m.inReplyTo, m.expectsReply, m.kind, m.requestId))
  {
  }

  // Every command or worker step leaves at most ordinary messages in inboxes.
  lemma InboxesStayOrdinary(b: Broker, a: Action)
    requires OrdinaryInboxes(b) && Possible(b, a)
    ensures OrdinaryInboxes(Next(b, a))
  {
    forall id, m | m in Conservation.InboxOf(Next(b, a), id) ensures m.kind == KIND_MESSAGE {
      Conservation.InboxStep(b, a, id);
      hide Next;
      if a.Do? && a.cmd.Reap? { FilterMembers(Conservation.InboxOf(b, id), Live(a.cmd.now), m); }
    }
  }

  // The pools of two moments, as a shim sees them.
  ghost predicate StreamsGrow(b: Broker, c: Broker) {
    && |b.pool| <= |c.pool|
    && forall pid: nat :: pid < |b.pool| ==> c.pool[pid].owner == b.pool[pid].owner && b.pool[pid].received <= c.pool[pid].received
  }

  lemma ShimStaysSound(w: World, v: World, sh: Shim)
    requires ShimSound(w, sh) && StreamsGrow(w.broker, v.broker)
    requires v.log == w.log || exists h :: v.log == w.log + [h]
    ensures ShimSound(v, sh)
  {
    hide FramesOf;
    if sh.sub.Some? {
      var pid := sh.sub.value;
      assert v.broker.pool[pid].received[..sh.taken] == w.broker.pool[pid].received[..sh.taken];
    }
  }

  lemma CommandKeepsGood(w: World, cmd: Cmd, v: World)
    requires Good(w) && Possible(w.broker, Do(cmd)) && v == w.(broker := Exec(w.broker, cmd).state)
    requires match cmd
             case Send(msg, _, _, _) =>
               Vouched(w.log, msg.from, SendParams(msg.to, msg.content, msg.inReplyTo, msg.expectsReply, msg.kind, msg.requestId))
             case _ => true
    ensures Good(v) && StreamsGrow(w.broker, v.broker)
  {
    ExecGrows(w.broker, cmd);
    ExecKeepsOwnership(w.broker, cmd);
    InboxesStayOrdinary(w.broker, Do(cmd));
    hide Exec, PushersOwned, OrdinaryInboxes, Vouched, ShimSound, Causal, PoolVouched;
    PoolStaysVouched(w.log, cmd, w.broker, v.broker);
    GrownStreams(cmd, w.broker, v.broker);
    forall i | 0 <= i < |w.shims| ensures ShimSound(v, w.shims[i]) { ShimStaysSound(w, v, w.shims[i]); }
  }

  lemma GrownStreams(cmd: Cmd, b: Broker, c: Broker)
    requires Grown(cmd, b, c)
    ensures StreamsGrow(b, c)
  {
    hide Comes;
    forall pid: nat | pid < |b.pool| ensures c.pool[pid].owner == b.pool[pid].owner && b.pool[pid].received <= c.pool[pid].received {
      assert PusherGrown(b.cfg, cmd, b.pool[pid], c.pool[pid]);
    }
  }

  lemma WorkStreams(b: Broker, pid: nat, s: Pushers.Step)
    requires Possible(b, Push(pid, s))
    ensures var c := Next(b, Push(pid, s));
            && StreamsGrow(b, c) && |c.pool| == |b.pool|
            && forall i :: 0 <= i < |b.pool| ==> c.pool[i].handed == b.pool[i].handed
  {
  }

  lemma WorkKeepsGood(w: World, pid: nat, s: Pushers.Step, v: World)
    requires Good(w) && Possible(w.broker, Push(pid, s)) && v == w.(broker := Next(w.broker, Push(pid, s)))
    ensures Good(v) && StreamsGrow(w.broker, v.broker)
  {
    PushKeepsOwnership(w.broker, pid, s);
    InboxesStayOrdinary(w.broker, Push(pid, s));
    WorkStreams(w.broker, pid, s);
    hide Next, PushersOwned, OrdinaryInboxes, ShimSound, Causal, EventVouched;
    forall i: nat, ev | i < |v.broker.pool| && ev in v.broker.pool[i].handed ensures EventVouched(w.log, v.broker.pool[i].owner, ev) {
      assert ev in w.broker.pool[i].handed;
    }
    forall i | 0 <= i < |w.shims| ensures ShimSound(v, w.shims[i]) { ShimStaysSound(w, v, w.shims[i]); }
  }

  // A shim notes something and changes itself.
  lemma ShimActs(w: World, i: nat, sh: Shim, h: Option<Happening>, v: World)
    requires Good(w) && i < |w.shims|
    requires v == Set(w, i, sh).(log := w.log + if h.Some? then [h.value] else [])
    requires ShimSound(v, sh) && (h.Some? ==> Caused(w.log, h.value))
    ensures Good(v)
  {
    hide ShimSound, PushersOwned, OrdinaryInboxes, Causal, PoolVouched, Caused;
    if h.Some? {
      CausalGrows(w.log, h.value);
      PoolVouchedStays(w.log, h.value, w.broker.pool);
    } else {
      assert w.log + [] == w.log;
    }
    forall j | 0 <= j < |w.shims| ensures ShimSound(v, v.shims[j]) {
      if j != i { ShimStaysSound(w, v, w.shims[j]); }
    }
  }

  // ---- Every step ---------------------------------------------------------------------------

  lemma JoinKeepsGood(w: World, now: Time, id: Id, path: string)
    requires Good(w) && Can(w, Join(now, id, path))
    ensures Good(Apply(w, Join(now, id, path)))
  {
    var cmd := Register(now, id, path);
    var v := w.(broker := Exec(w.broker, cmd).state);
    var t := Apply(w, Join(now, id, path));
    CommandKeepsGood(w, cmd, v);
    hide Exec, PushersOwned, OrdinaryInboxes, PoolVouched, Causal;
    forall i | 0 <= i < |w.shims| ensures ShimSound(t, w.shims[i]) { assert ShimSound(v, w.shims[i]); }
    assert ShimSound(t, Shim(id, None, 0, [], None, []));
    hide ShimSound;
  }

  lemma ListenKeepsGood(w: World, i: nat)
    requires Good(w) && Can(w, Listen(i))
    ensures Good(Apply(w, Listen(i)))
  {
    var sh, cmd := w.shims[i], Subscribe(w.shims[i].session);
    var v := w.(broker := Exec(w.broker, cmd).state);
    CommandKeepsGood(w, cmd, v);
    NewSubscription(w.broker, sh.session);
    hide Exec, PushersOwned, OrdinaryInboxes, PoolVouched, Causal, Vouched;
    assert ShimSound(v, sh);
    NoFrames();
    hide FramesOf;
    var sh' := sh.(sub := Some(|w.broker.pool|));
    assert v.broker.pool[|w.broker.pool|].received[..0] == [];
    assert ShimSound(Apply(w, Listen(i)), sh');
    hide ShimSound;
    assert v.log + [] == v.log;
    ShimActs(v, i, sh', None, Apply(w, Listen(i)));
  }

  lemma NewSubscription(b: Broker, id: Id)
    ensures var c := Exec(b, Subscribe(id)).state; |c.pool| == |b.pool| + 1 && c.pool[|b.pool|].owner == id
  {
    SideEffectsLeaveSessions(b, id, PeerLeft(id));
    hide DropPusher;
  }

  lemma RpcKeepsGood(w: World, i: nat, msgId: Id, at: Time, tripAt: Time)
    requires Good(w) && Can(w, Rpc(i, msgId, at, tripAt))
    ensures Good(Apply(w, Rpc(i, msgId, at, tripAt)))
  {
    var sh := w.shims[i];
    var cmd := Send(Outgoing(sh.session, sh.outbox[0]), msgId, at, tripAt);
    var v := w.(broker := Exec(w.broker, cmd).state);
    assert ShimSound(w, sh);
    hide FramesOf;
    assert sh.outbox[0] == SendParams(cmd.msg.to, cmd.msg.content, cmd.msg.inReplyTo, cmd.msg.expectsReply, cmd.msg.kind, cmd.msg.requestId);
    hide Vouched;
    CommandKeepsGood(w, cmd, v);
    hide Exec, PushersOwned, OrdinaryInboxes, PoolVouched, Causal;
    var t := Apply(w, Rpc(i, msgId, at, tripAt));
    assert ShimSound(v, sh);
    assert ShimSound(t, sh.(outbox := sh.outbox[1..]));
    hide ShimSound;
    assert v.log + [] == v.log;
    ShimActs(v, i, sh.(outbox := sh.outbox[1..]), None, t);
  }

  lemma ListedKeepsGood(w: World, i: nat, now: Time, order: seq<Id>)
    requires Good(w) && Can(w, Listed(i, now, order))
    ensures Good(Apply(w, Listed(i, now, order)))
  {
    var sh := w.shims[i];
    var cmd := ListPeers(now, sh.session);
    var v := w.(broker := Exec(w.broker, cmd).state);
    CommandKeepsGood(w, cmd, v);
    hide Exec, PushersOwned, OrdinaryInboxes, PoolVouched, Causal, FramesOf, Listing;
    var t := Apply(w, Listed(i, now, order));
    assert ShimSound(v, sh);
    assert ShimSound(t, t.shims[i]);
    hide ShimSound;
    assert v.log + [] == v.log;
    ShimActs(v, i, t.shims[i], None, t);
  }

  // The lines a host sends.
  lemma HostKeepsGood(w: World, st: Step)
    requires Good(w) && Can(w, st) && (st.Prompt? || st.Respond? || st.Say? || st.ListFails? || st.RpcFails?)
    ensures Good(Apply(w, st))
  {
    var t, sh := Apply(w, st), w.shims[st.i];
    assert ShimSound(w, sh);
    hide PushersOwned, OrdinaryInboxes, PoolVouched, Causal, FramesOf;
    assert w.log + [] == w.log;
    assert ShimSound(t, t.shims[st.i]);
    if st.Prompt? {
      if st.requestId != "" { ShimActs(w, st.i, t.shims[st.i], Some(Prompted(sh.session, st.requestId)), t); }
    } else if st.Respond? {
      if RespondPermission(st.to, st.requestId, st.behavior).Some? {
        ShimActs(w, st.i, t.shims[st.i], Some(Responded(sh.session, st.to, st.requestId, st.behavior)), t);
      }
    } else {
      ShimActs(w, st.i, t.shims[st.i], None, t);
    }
  }

  // An event that reached the subscriber was handed over by the loop.
  lemma ReceivedWasHanded(p: PusherState, k: nat)
    requires Accounted(p) && k < |p.received|
    ensures p.received[k] in p.handed
  {
    PickLength(p.handed, p.fates, Sent);
    assert p.received[k] == (p.received + p.out)[k];
    assert p.received[k] in Pick(p.handed, p.fates, Sent);
  }

  // A frame is caused by what the message it renders was vouched with.
  lemma FrameIsCaused(log: seq<Happening>, session: Id, ev: Event)
    requires EventVouched(log, session, ev) && EventNotification(ev).Some?
    ensures Caused(log, Wrote(session, EventNotification(ev).value))
  {
    var m := ev.msg;
    if m.kind == KIND_PERMISSION_VERDICT {
      assert Responded(m.from, session, m.requestId, m.content) in log;
    }
  }

  lemma ForwardKeepsGood(w: World, i: nat)
    requires Good(w) && Can(w, Forward(i))
    ensures Good(Apply(w, Forward(i)))
  {
    var t, sh := Apply(w, Forward(i)), w.shims[i];
    var p := w.broker.pool[sh.sub.value];
    var ev := p.received[sh.taken];
    assert ShimSound(w, sh);
    assert Accounted(p);
    ReceivedWasHanded(p, sh.taken);
    assert EventVouched(w.log, sh.session, ev);
    FramesStep(p.received, sh.taken);
    hide PushersOwned, OrdinaryInboxes, PoolVouched, Causal, FramesOf, Vouched, EventVouched;
    var f := EventNotification(ev);
    assert w.log + [] == w.log;
    ShimForwards(w, i, t);
    if f.Some? { FrameIsCaused(w.log, sh.session, ev); }
    hide ShimSound, Caused, EventNotification;
    ShimActs(w, i, t.shims[i], if f.Some? then Some(Wrote(sh.session, f.value)) else None, t);
  }

  lemma ShimForwards(w: World, i: nat, t: World)
    requires Can(w, Forward(i)) && t == Apply(w, Forward(i)) && ShimSound(w, w.shims[i])
    ensures ShimSound(t, t.shims[i])
  {
    var sh := w.shims[i];
    FramesStep(w.broker.pool[sh.sub.value].received, sh.taken);
    hide FramesOf, EventNotification;
  }

  lemma StepKeepsGood(w: World, st: Step)
    requires Good(w) && Can(w, st)
    ensures Good(Apply(w, st))
  {
    hide Good;
    match st
    case Join(now, id, path) => JoinKeepsGood(w, now, id, path);
    case Listen(i) => ListenKeepsGood(w, i);
    case Listed(i, now, order) => ListedKeepsGood(w, i, now, order);
    case Rpc(i, msgId, at, tripAt) => RpcKeepsGood(w, i, msgId, at, tripAt);
    case Forward(i) => ForwardKeepsGood(w, i);
    case Other(Do(cmd)) => CommandKeepsGood(w, cmd, Apply(w, st));
    case Other(Push(pid, s)) => WorkKeepsGood(w, pid, s, Apply(w, st));
    case _ => HostKeepsGood(w, st);
  }

  lemma {:induction false} TraceKeepsGood(w: World, steps: seq<Step>)
    requires Good(w) && IsTrace(w, steps)
    ensures Good(End(w, steps))
    decreases |steps|
  {
    hide Good, Can, Apply;
    if steps != [] {
      StepKeepsGood(w, steps[0]);
      TraceKeepsGood(Apply(w, steps[0]), steps[1..]);
    }
  }

  lemma StartIsGood(cfg: Settings, now: Time)
    ensures Good(Start(cfg, now))
  {
  }

  // The prompts of a dialog go, in some order, once each to the sessions other than the
  // shim's own that were heard of within the session TTL.
  lemma PromptsGoToPeers(w: World, i: nat, now: Time, order: seq<Id>)
    requires Can(w, Listed(i, now, order))
    ensures var sh, out := w.shims[i], Apply(w, Listed(i, now, order)).shims[i].outbox;
            && |out| == |order| && Distinct(order)
            && (forall k :: k in order <==>
                  k in w.broker.sessions && k != sh.session && now - w.broker.sessions[k].session.lastSeen <= w.broker.cfg.sessionTTL)
            && forall j :: 0 <= j < |out| ==>
                 && order[j] in w.broker.sessions && out[j].to == w.broker.sessions[order[j]].session.id
                 && out[j].requestId == sh.dialog.value.requestId && out[j].kind == "permission_request"
  {
  }

  // ---- Every run --------------------------------------------------------------------------------

  // In every run whose clients are shims: each permission frame answers as an earlier
  // respond_permission call addressed to that session said, with allow or deny and a
  // non-empty id; each permission_request frame names a dialog that the host of its sender
  // opened earlier; and no permission message ever comes out of a poll.
  lemma PermissionRelayIsCausal(cfg: Settings, now: Time, steps: seq<Step>)
    requires IsTrace(Start(cfg, now), steps)
    ensures var w := End(Start(cfg, now), steps);
            && Causal(w.log)
            && (forall i, k :: 0 <= i < |w.shims| && 0 <= k < |w.shims[i].emitted| ==>
                  Wrote(w.shims[i].session, w.shims[i].emitted[k]) in w.log)
            && forall id :: var r := Exec(w.broker, Poll(id)).reply;
                 r.Polled? ==> forall k :: 0 <= k < |r.msgs| ==> r.msgs[k].kind == KIND_MESSAGE
  {
    hide IsTrace, End, PushersOwned, PoolVouched, Causal;
    StartIsGood(cfg, now);
    TraceKeepsGood(Start(cfg, now), steps);
    var w := End(Start(cfg, now), steps);
    forall i, k | 0 <= i < |w.shims| && 0 <= k < |w.shims[i].emitted| ensures Wrote(w.shims[i].session, w.shims[i].emitted[k]) in w.log {
      assert ShimSound(w, w.shims[i]);
    }
    forall id, k | id in w.broker.sessions && 0 <= k < |w.broker.sessions[id].inbox|
      ensures w.broker.sessions[id].inbox[k].kind == KIND_MESSAGE
    {
      assert w.broker.sessions[id].inbox[k] in Conservation.InboxOf(w.broker, id);
    }
  }

  ghost predicate FramesInOrder(sh: Shim, b: Broker) {
    match sh.sub
    case None => sh.emitted == []
    case Some(pid) =>
      && pid < |b.pool| && sh.taken <= |b.pool[pid].received|
      && sh.emitted == FramesOf(b.pool[pid].received[..sh.taken])
      && Subsequence(b.pool[pid].received[..sh.taken], b.pool[pid].handed)
  }

  lemma ShimIsInOrder(w: World, sh: Shim)
    requires ShimSound(w, sh) && PushersOwned(w.broker)
    ensures FramesInOrder(sh, w.broker)
  {
    hide FramesOf, Subsequence, Vouched, Active;
    if sh.sub.Some? {
      var p := w.broker.pool[sh.sub.value];
      assert Sound(p, w.broker.cfg.maxInboxSize);
      PrefixIsInOrder(p, sh.taken);
    }
  }

  lemma PrefixIsInOrder(p: PusherState, k: nat)
    requires Accounted(p) && k <= |p.received|
    ensures Subsequence(p.received[..k], p.handed)
  {
    hide Subsequence;
    DeliveryIsFifo(p);
    assert p.received + p.out == p.received[..k] + (p.received[k..] + p.out);
    SubsequencePrefix(p.received[..k], p.received[k..] + p.out, p.handed);
  }

  // What a host sees is, in order, the frames of some of the events that the loop handed to
  // its shim's subscription, none of them twice.
  lemma FramesAreFifo(cfg: Settings, now: Time, steps: seq<Step>, i: nat)
    requires IsTrace(Start(cfg, now), steps) && i < |End(Start(cfg, now), steps).shims|
    ensures FramesInOrder(End(Start(cfg, now), steps).shims[i], End(Start(cfg, now), steps).broker)
  {
    hide IsTrace, End, ShimSound, PushersOwned, OrdinaryInboxes, PoolVouched, Causal, FramesInOrder;
    StartIsGood(cfg, now);
    TraceKeepsGood(Start(cfg, now), steps);
    ShimIsInOrder(End(Start(cfg, now), steps), End(Start(cfg, now), steps).shims[i]);
  }
}
