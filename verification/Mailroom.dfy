// The inboxes of all sessions as the loop holds them: one slice each, every slice with a
// backing array of its own. Whatever later commands do, a slice that Poll handed out is
// never written again (Send, fanout, Poll, reap and expireMessages of
// internal/broker/broker.go).
module Mailrooms {
  import opened Types
  import opened Inboxes
  import opened TokenBuckets
  import opened BrokerModel
  import opened Effects
  import Conservation

  // What the commands do to inboxes.
  datatype MailOp =
    | Open(id: Id)                   // a session is registered, or its id is reused
    | Drop(id: Id)
    | Put(id: Id, m: Message)
    | Take(id: Id)                   // Poll
    | ExpireAll(now: Time)

  function After(boxes: map<Id, seq<Message>>, op: MailOp, max: int): map<Id, seq<Message>>
    requires max > 0
  {
    match op
    case Open(id) => boxes[id := []]
    case Drop(id) => boxes - {id}
    case Put(id, m) => if id in boxes then boxes[id := Enqueued(boxes[id], m, max)] else boxes
    case Take(id) => if id in boxes then boxes[id := []] else boxes
    case ExpireAll(now) => map id | id in boxes :: Unexpired(boxes[id], now)
  }

  class Mailroom {
    const max: int
    var boxes: map<Id, Inbox<Message>>
    // Every backing array that Poll has handed out.
    ghost var given: set<array<Message>>

    ghost function Boxes(): set<Inbox<Message>>
      reads this
    {
      set i | i in boxes :: boxes[i]
    }

    ghost function Buffers(): set<array<Message>>
      reads this, Boxes()
    {
      set i | i in boxes && boxes[i].slice.buf != null :: boxes[i].slice.buf
    }

    // All that the loop may write to.
    ghost function Owned(): (s: set<object>)
      reads this, Boxes()
      ensures this in s && Boxes() <= s && Buffers() <= s
      ensures forall o :: o in s ==> o == this || o in Boxes() || o in Buffers()
    {
      {this} + Boxes() + Buffers()
    }

    // No two inboxes share a backing array, and none is written that was handed out.
    ghost predicate Valid()
      reads this, Boxes()
    {
      && max > 0
      && (forall i :: i in boxes ==> boxes[i].Valid())
      && (forall i, j :: i in boxes && j in boxes && i != j ==> Apart(boxes[i], boxes[j]))
      && (forall i :: i in boxes && boxes[i].slice.buf != null ==> boxes[i].slice.buf !in given)
    }

    ghost predicate Apart(a: Inbox<Message>, b: Inbox<Message>)
      reads a, b
    {
      a != b && (a.slice.buf != null ==> a.slice.buf != b.slice.buf)
    }

    ghost function Contents(): map<Id, seq<Message>>
      requires Valid()
      reads this, Boxes(), Buffers()
    {
      map i | i in boxes :: boxes[i].Contents()
    }

    constructor (max: int)
      requires max > 0
      ensures Valid() && fresh(this) && Contents() == map[] && given == {} && this.max == max
      ensures fresh(Owned())
    {
      this.max, boxes, given := max, map[], {};
    }

    method OpenBox(id: Id)
      requires Valid()
      modifies this
      ensures Valid() && given == old(given)
      ensures forall o :: o in Owned() ==> o in old(Owned()) || fresh(o)
      ensures Contents() == After(old(Contents()), Open(id), max)
    {
      var box := new Inbox<Message>();
      boxes := boxes[id := box];
      OpenedIsValid(id, box);
      hide Valid, Owned, Contents;
      OpenedHolds(id, box);
      OpenedOwns(id, box);
    }

    // One more inbox, new and empty; the others as they were.
    twostate predicate Opened(id: Id, new box: Inbox<Message>)
      reads this, Boxes(), Buffers(), box
    {
      && boxes == old(boxes)[id := box] && given == old(given) && fresh(box) && box.slice.buf == null
      && box.Valid() && box.Contents() == []
      && forall i :: i in boxes && i != id ==> unchanged(boxes[i]) && (boxes[i].slice.buf != null ==> unchanged(boxes[i].slice.buf))
    }

    twostate lemma OpenedIsValid(id: Id, new box: Inbox<Message>)
      requires old(Valid()) && Opened(id, box)
      ensures Valid()
    {
      forall i, j | i in boxes && j in boxes && i != j ensures Apart(boxes[i], boxes[j]) {
        if i != id && j != id { assert old(Apart(boxes[i], boxes[j])); }
      }
    }

    // An inbox that was not touched holds what it held.
    twostate lemma SameAt(i: Id)
      requires old(Valid()) && Valid() && i in boxes && i in old(boxes) && boxes[i] == old(boxes[i])
      requires unchanged(boxes[i]) && (boxes[i].slice.buf != null ==> unchanged(boxes[i].slice.buf))
      ensures i in Contents() && i in old(Contents()) && Contents()[i] == old(Contents())[i]
    {
    }

    lemma ContentsAt(id: Id)
      requires Valid() && id in boxes
      ensures boxes[id].Valid() && id in Contents() && Contents()[id] == boxes[id].Contents()
    {
    }

    twostate lemma ContentsOver()
      requires old(Valid()) && Valid()
      ensures Contents().Keys == boxes.Keys && old(Contents()).Keys == old(boxes).Keys
    {
    }

    twostate lemma OpenedHolds(id: Id, new box: Inbox<Message>)
      requires old(Valid()) && Valid() && Opened(id, box)
      ensures Contents() == old(Contents())[id := []]
    {
      ContentsAt(id);
      ContentsOver();
      hide Valid, Contents;
      forall i | i in boxes && i != id ensures Contents()[i] == old(Contents())[i] { SameAt(i); }
      hide Opened;
    }

    twostate lemma OpenedOwns(id: Id, new box: Inbox<Message>)
      requires Opened(id, box)
      ensures forall o :: o in Owned() ==> o in old(Owned()) || fresh(o)
    {
    }

    // Some inboxes less; the others as they were.
    twostate predicate Fewer()
      reads this, Boxes(), Buffers()
    {
      && boxes.Keys <= old(boxes).Keys && given == old(given)
      && forall i :: i in boxes ==> boxes[i] == old(boxes[i]) && unchanged(boxes[i]) && (boxes[i].slice.buf != null ==> unchanged(boxes[i].slice.buf))
    }

    twostate lemma FewerIsValid()
      requires old(Valid()) && Fewer()
      ensures Valid()
    {
      forall i, j | i in boxes && j in boxes && i != j ensures Apart(boxes[i], boxes[j]) {
        assert old(Apart(boxes[i], boxes[j]));
      }
    }

    twostate lemma FewerHolds()
      requires old(Valid()) && Valid() && Fewer()
      ensures Contents() == map i | i in boxes :: old(Contents())[i]
    {
      ContentsOver();
      hide Valid, Contents;
      forall i | i in boxes ensures Contents()[i] == old(Contents())[i] { SameAt(i); }
      hide Fewer;
    }

    twostate lemma FewerOwns()
      requires Fewer()
      ensures forall o :: o in Owned() ==> o in old(Owned())
    {
    }

    method DropBox(id: Id)
      requires Valid()
      modifies this
      ensures Valid() && given == old(given)
      ensures forall o :: o in Owned() ==> o in old(Owned()) || fresh(o)
      ensures Contents() == After(old(Contents()), Drop(id), max)
    {
      boxes := boxes - {id};
      FewerIsValid();
      hide Valid, Owned, Contents;
      FewerHolds();
      FewerOwns();
    }

    // What a method needs to know about an inbox before it changes it.
    lemma StandsAlone(id: Id)
      requires Valid() && id in boxes
      ensures max > 0 && boxes[id].Valid() && id in Contents() && Contents()[id] == boxes[id].Contents()
      ensures boxes[id] in Owned() && (boxes[id].slice.buf != null ==> boxes[id].slice.buf in Owned())
      ensures forall i :: i in boxes && i != id ==> Apart(boxes[i], boxes[id])
    {
    }

    // Only the inbox of id has changed, and its array is the one it had, a new one, or none.
    twostate predicate OnlyAt(id: Id)
      requires id in boxes
      reads this, Boxes(), Buffers()
    {
      && boxes == old(boxes)
      && (forall i :: i in boxes && i != id ==> unchanged(boxes[i]))
      && (forall i :: i in boxes && i != id && boxes[i].slice.buf != null ==> unchanged(boxes[i].slice.buf))
      && (boxes[id].slice.buf == null || boxes[id].slice.buf == old(boxes[id].slice.buf) || fresh(boxes[id].slice.buf))
    }

    twostate lemma StaysValid(id: Id)
      requires old(Valid()) && id in boxes && OnlyAt(id) && boxes[id].Valid()
      requires forall a :: a in given ==> a in old(given) || (a == old(boxes[id].slice.buf) && boxes[id].slice.buf == null)
      requires forall a :: a in given ==> old(allocated(a))
      ensures Valid()
    {
      forall i, j | i in boxes && j in boxes && i != j ensures Apart(boxes[i], boxes[j]) {
        assert old(Apart(boxes[i], boxes[j])) && old(Apart(boxes[j], boxes[i]));
      }
      forall i | i in boxes && i != id ensures boxes[i].slice.buf != null ==> boxes[i].slice.buf !in given {
        assert old(Apart(boxes[i], boxes[id]));
      }
    }

    twostate lemma OwnsNoMore(id: Id)
      requires id in boxes && OnlyAt(id)
      ensures forall o :: o in Owned() ==> o in old(Owned()) || fresh(o)
    {
    }

    twostate lemma ChangesOnly(id: Id)
      requires old(Valid()) && Valid() && id in boxes && OnlyAt(id)
      ensures Contents() == old(Contents())[id := boxes[id].Contents()]
    {
      ContentsAt(id);
      ContentsOver();
      hide Valid, Contents;
      forall i | i in boxes && i != id ensures Contents()[i] == old(Contents())[i] { SameAt(i); }
      hide OnlyAt;
    }

    // All of it, for the methods that change one inbox.
    twostate lemma OneChanged(id: Id)
      requires old(Valid()) && id in boxes && OnlyAt(id) && boxes[id].Valid()
      requires forall a :: a in given ==> a in old(given) || (a == old(boxes[id].slice.buf) && boxes[id].slice.buf == null)
      requires forall a :: a in given ==> old(allocated(a))
      ensures Valid() && Contents() == old(Contents())[id := boxes[id].Contents()]
      ensures forall o :: o in Owned() ==> o in old(Owned()) || fresh(o)
    {
      hide Valid, Contents, Owned, OnlyAt;
      StaysValid(id);
      OwnsNoMore(id);
      ChangesOnly(id);
    }

    // enqueue
    method PutIn(id: Id, m: Message)
      requires Valid()
      modifies Owned()
      ensures Valid() && given == old(given)
      ensures forall o :: o in Owned() ==> o in old(Owned()) || fresh(o)
      ensures Contents() == After(old(Contents()), MailOp.Put(id, m), max)
    {
      if id in boxes {
        StandsAlone(id);
        hide Enqueued, Valid, Contents, Owned;
        boxes[id].Enqueue(m, max);
        OneChanged(id);
      }
    }

    // Poll: the caller gets the slice that the inbox has been using.
    method TakeAll(id: Id) returns (s: Slice<Message>)
      requires Valid()
      modifies Owned()
      ensures Valid()
      ensures forall o :: o in Owned() ==> o in old(Owned()) || fresh(o)
      ensures InBounds(s) && Elements(s) == if id in old(boxes) then old(Contents())[id] else []
      ensures given == old(given) + if s.buf == null then {} else {s.buf}
      ensures Contents() == After(old(Contents()), Take(id), max)
    {
      ContentsOver();
      hide Valid, Contents, Owned;
      s := Slice(null, 0, 0);
      if id in boxes {
        s := TakeFrom(id);
      }
    }

    method TakeFrom(id: Id) returns (s: Slice<Message>)
      requires Valid() && id in boxes && id in Contents()
      modifies Owned()
      ensures Valid()
      ensures forall o :: o in Owned() ==> o in old(Owned()) || fresh(o)
      ensures InBounds(s) && Elements(s) == old(Contents())[id]
      ensures given == old(given) + if s.buf == null then {} else {s.buf}
      ensures Contents() == old(Contents())[id := []]
    {
      hide Valid, Contents, Owned;
      StandsAlone(id);
      s := boxes[id].Poll();
      given := given + if s.buf == null then {} else {s.buf};
      OneChanged(id);
    }

    // expireMessages
    method Expire(now: Time)
      requires Valid()
      modifies Owned()
      ensures Valid() && given == old(given)
      ensures forall o :: o in Owned() ==> o in old(Owned()) || fresh(o)
      ensures Contents() == After(old(Contents()), ExpireAll(now), max)
    {
      hide Filter, Owned;
      ghost var was := Contents();
      var todo := boxes.Keys;
      while todo != {}
        invariant Valid() && given == old(given) && boxes == old(boxes) && todo <= boxes.Keys
        invariant forall o :: o in Owned() ==> o in old(Owned()) || fresh(o)
        invariant forall i :: i in boxes ==> Contents()[i] == if i in todo then was[i] else Unexpired(was[i], now)
      {
        var id :| id in todo;
        todo := todo - {id};
        RetainIn(id, now);
      }
    }

    // Its loop body.
    method RetainIn(id: Id, now: Time)
      requires Valid() && id in boxes
      modifies Owned()
      ensures Valid() && given == old(given) && boxes == old(boxes)
      ensures forall o :: o in Owned() ==> o in old(Owned()) || fresh(o)
      ensures Contents() == old(Contents())[id := Unexpired(old(Contents())[id], now)]
    {
      StandsAlone(id);
      hide Filter, Valid, Contents, Owned;
      boxes[id].Retain(Live(now));
      OneChanged(id);
    }

    method Do(op: MailOp)
      requires Valid()
      modifies Owned()
      ensures Valid() && old(given) <= given
      ensures forall o :: o in Owned() ==> o in old(Owned()) || fresh(o)
      ensures Contents() == After(old(Contents()), op, max)
    {
      match op
      case Open(id) => OpenBox(id);
      case Drop(id) => DropBox(id);
      case Put(id, m) => PutIn(id, m);
      case Take(id) => var s := TakeAll(id);
      case ExpireAll(now) => Expire(now);
    }
  }

  function AfterAll(boxes: map<Id, seq<Message>>, ops: seq<MailOp>, max: int): map<Id, seq<Message>>
    requires max > 0
  {
    if ops == [] then boxes else After(AfterAll(boxes, ops[..|ops| - 1], max), ops[|ops| - 1], max)
  }

  // Poll one session, then do anything at all: the messages in the slice that the poll
  // returned stay as they were, and the inboxes hold what the operations say.
  method PolledStaysPolled(room: Mailroom, id: Id, ops: seq<MailOp>) returns (s: Slice<Message>)
    requires room.Valid()
    modifies room.Owned()
    ensures InBounds(s) && Elements(s) == if id in old(room.boxes) then old(room.Contents())[id] else []
    ensures room.Valid() && room.Contents() == AfterAll(After(old(room.Contents()), Take(id), room.max), ops, room.max)
  {
    hide After;
    s := room.TakeAll(id);
    ghost var polled, start := Elements(s), room.Contents();
    for k := 0 to |ops|
      invariant room.Valid() && InBounds(s) && Elements(s) == polled
      invariant s.buf != null ==> s.buf in room.given
      invariant forall o :: o in room.Owned() ==> o in old(room.Owned()) || fresh(o)
      invariant room.Contents() == AfterAll(start, ops[..k], room.max)
    {
      assert s.buf != null ==> s.buf !in room.Owned();
      room.Do(ops[k]);
      assert ops[..k + 1][..k] == ops[..k];
    }
    assert ops[..|ops|] == ops;
  }

  // ---- The broker's runs, as operations on inboxes --------------------------------------

  ghost function InboxesOf(b: Broker): map<Id, seq<Message>> {
    map id | id in b.sessions :: b.sessions[id].inbox
  }

  ghost function FanoutOps(b: Broker, from: Id, content: string, order: seq<Id>, stamps: map<Id, Stamp>): seq<MailOp> {
    if order == [] then []
    else
      var to := order[|order| - 1];
      FanoutOps(b, from, content, order[..|order| - 1], stamps)
      + if to == from then [] else [MailOp.Put(to, Copy(b.cfg, from, content, to, StampFor(stamps, to)))]
  }

  ghost function ReapOps(b: Broker, now: Time, order: seq<Id>): seq<MailOp> {
    if order == [] then []
    else
      var pre := order[..|order| - 1];
      ReapOps(b, now, pre) + if Stale(ReapEach(b, now, pre), order[|order| - 1], now) then [Drop(order[|order| - 1])] else []
  }

  ghost function OpsOf(b: Broker, a: Action): seq<MailOp> {
    match a
    case Push(_, _) => []
    case Do(cmd) =>
      match cmd
      case Register(_, id, _) => [Open(id)]
      case Unregister(id) => [Drop(id)]
      case Send(msg, id, at, _) => if msg.kind == KIND_MESSAGE then [MailOp.Put(msg.to, Stamped(b.cfg, msg, id, at))] else []
      case Broadcast(now, from, content, order, stamps, _) =>
        (if from in b.sessions then [] else [Open(from)])
        + if HasToken(b, from, now) then FanoutOps(b, from, content, order, stamps) else []
      case Poll(id) => [Take(id)]
      case Reap(now, order) => ReapOps(b.(clock := now), now, order) + [ExpireAll(now)]
      case _ => []
  }

  ghost function RunOps(b: Broker, acts: seq<Action>): seq<MailOp> {
    if acts == [] then []
    else RunOps(b, acts[..|acts| - 1]) + OpsOf(Run(b, acts[..|acts| - 1]), acts[|acts| - 1])
  }

  lemma AfterAllSnoc(boxes: map<Id, seq<Message>>, ops: seq<MailOp>, op: MailOp, max: int)
    requires max > 0
    ensures AfterAll(boxes, ops + [op], max) == After(AfterAll(boxes, ops, max), op, max)
  {
    assert (ops + [op])[..|ops|] == ops;
  }

  lemma {:induction false} AfterAllConcat(boxes: map<Id, seq<Message>>, ops: seq<MailOp>, more: seq<MailOp>, max: int)
    requires max > 0
    ensures AfterAll(boxes, ops + more, max) == AfterAll(AfterAll(boxes, ops, max), more, max)
  {
    hide After;
    if more == [] {
      assert ops + more == ops;
    } else {
      var n := |more| - 1;
      AfterAllConcat(boxes, ops, more[..n], max);
      assert ops + more == ops + more[..n] + [more[n]];
      AfterAllSnoc(boxes, ops + more[..n], more[n], max);
    }
  }

  lemma AfterOne(boxes: map<Id, seq<Message>>, op: MailOp, max: int)
    requires max > 0
    ensures AfterAll(boxes, [op], max) == After(boxes, op, max)
    ensures AfterAll(boxes, [], max) == boxes
  {
    assert [] + [op] == [op];
    AfterAllSnoc(boxes, [], op, max);
  }

  lemma FanToIsPut(b: Broker, from: Id, content: string, to: Id, st: Stamp)
    ensures var c := FanTo(b, from, content, to, st);
            c.cfg == b.cfg && InboxesOf(c) == if to == from then InboxesOf(b)
                                              else After(InboxesOf(b), MailOp.Put(to, Copy(b.cfg, from, content, to, st)), b.cfg.maxInboxSize)
  {
    FanToSessions(b, from, content, to, st);
    hide FanTo, Copy, Enqueued;
  }

  lemma {:induction false} FanoutIsPuts(b: Broker, from: Id, content: string, order: seq<Id>, stamps: map<Id, Stamp>)
    ensures var c := Fanout(b, from, content, order, stamps);
            c.cfg == b.cfg && InboxesOf(c) == AfterAll(InboxesOf(b), FanoutOps(b, from, content, order, stamps), b.cfg.maxInboxSize)
  {
    hide FanTo, Copy, InboxesOf, After;
    if order != [] {
      var n := |order| - 1;
      var to, pre := order[n], order[..n];
      FanoutIsPuts(b, from, content, pre, stamps);
      FanToIsPut(Fanout(b, from, content, pre, stamps), from, content, to, StampFor(stamps, to));
      var ops := FanoutOps(b, from, content, pre, stamps);
      if to == from {
        assert ops + [] == ops;
      } else {
        AfterAllSnoc(InboxesOf(b), ops, MailOp.Put(to, Copy(b.cfg, from, content, to, StampFor(stamps, to))), b.cfg.maxInboxSize);
      }
    }
  }

  lemma ReapOneIsDrop(b: Broker, now: Time, id: Id)
    ensures var c := ReapOne(b, now, id);
            c.cfg == b.cfg && InboxesOf(c) == if Stale(b, id, now) then After(InboxesOf(b), Drop(id), b.cfg.maxInboxSize) else InboxesOf(b)
  {
    RemoveSessionEffect(b, id);
    hide RemoveSession;
  }

  lemma {:induction false} ReapIsDrops(b: Broker, now: Time, order: seq<Id>)
    ensures var c := ReapEach(b, now, order);
            c.cfg == b.cfg && InboxesOf(c) == AfterAll(InboxesOf(b), ReapOps(b, now, order), b.cfg.maxInboxSize)
  {
    hide ReapOne, InboxesOf, After, Stale;
    if order != [] {
      var n := |order| - 1;
      ReapIsDrops(b, now, order[..n]);
      ReapOneIsDrop(ReapEach(b, now, order[..n]), now, order[n]);
      var ops := ReapOps(b, now, order[..n]);
      AfterAllSnoc(InboxesOf(b), ops, Drop(order[n]), b.cfg.maxInboxSize);
      assert ops + [] == ops;
    }
  }

  lemma CommandIsMailOps(b: Broker, cmd: Cmd)
    requires cmd.Register? || cmd.Unregister? || (cmd.Send? && cmd.msg.kind == KIND_MESSAGE) || cmd.Poll?
    ensures InboxesOf(Exec(b, cmd).state) == After(InboxesOf(b), OpsOf(b, Do(cmd))[0], b.cfg.maxInboxSize)
  {
    hide NotifyPeers, DropPusher, Deliver, Enqueued, Stamped;
    match cmd
    case Register(now, id, path) =>
      var s := Session(id, path, now, now);
      NotifySessions(b.(sessions := b.sessions[id := Entry(s, [], Full(b.cfg.broadcastBurst, b.cfg.broadcastRefill, now))], clock := now), id, PeerJoined(s));
    case Unregister(id) => RemoveSessionEffect(b, id);
    case Send(msg, id, at, tripAt) =>
      SendSessions(b, msg, id, at, tripAt);
      hide DoSend;
    case Poll(_) =>
  }

  lemma OthersLeaveInboxes(b: Broker, cmd: Cmd)
    requires cmd.Touch? || cmd.ListPeers? || cmd.Lookup? || cmd.Subscribe? || cmd.Cancel? || (cmd.Send? && cmd.msg.kind != KIND_MESSAGE)
    ensures InboxesOf(Exec(b, cmd).state) == InboxesOf(b)
  {
    hide DropPusher, Deliver;
    if cmd.Send? {
      SendSessions(b, cmd.msg, cmd.msgId, cmd.at, cmd.tripAt);
      hide DoSend;
    } else {
      NotifySessions(b, cmd.id, PeerLeft(cmd.id));
    }
  }

  lemma ReapIsMailOps(b: Broker, now: Time, order: seq<Id>)
    ensures InboxesOf(Exec(b, Reap(now, order)).state) == AfterAll(InboxesOf(b), OpsOf(b, Do(Reap(now, order))), b.cfg.maxInboxSize)
  {
    hide Exec, ReapEach, ReapOps, InboxesOf, After, AfterAll;
    var b1 := b.(clock := now);
    ReapIsDrops(b1, now, order);
    AfterAllSnoc(InboxesOf(b1), ReapOps(b1, now, order), ExpireAll(now), b.cfg.maxInboxSize);
    ReapInboxes(b, now, order);
  }

  lemma ReapInboxes(b: Broker, now: Time, order: seq<Id>)
    ensures var b1 := b.(clock := now);
            && InboxesOf(b1) == InboxesOf(b)
            && InboxesOf(Exec(b, Reap(now, order)).state) == After(InboxesOf(ReapEach(b1, now, order)), ExpireAll(now), b.cfg.maxInboxSize)
  {
    hide ReapEach, Unexpired;
  }

  // What an action does to inboxes is what its operations do.
  lemma ActionIsMailOps(b: Broker, a: Action)
    ensures InboxesOf(Next(b, a)) == AfterAll(InboxesOf(b), OpsOf(b, a), b.cfg.maxInboxSize)
  {
    var boxes, max := InboxesOf(b), b.cfg.maxInboxSize;
    AfterOne(boxes, Take(""), max);
    if a.Do? {
      var cmd, ops := a.cmd, OpsOf(b, a);
      hide Exec, OpsOf, After;
      if cmd.Broadcast? {
        BroadcastIsMailOps(b, cmd.now, cmd.id, cmd.content, cmd.order, cmd.stamps, cmd.end);
      } else if cmd.Reap? {
        ReapIsMailOps(b, cmd.now, cmd.order);
      } else if cmd.Register? || cmd.Unregister? || (cmd.Send? && cmd.msg.kind == KIND_MESSAGE) || cmd.Poll? {
        CommandIsMailOps(b, cmd);
        assert ops == [ops[0]] by { OneOp(b, cmd); }
        AfterOne(boxes, ops[0], max);
      } else {
        OthersLeaveInboxes(b, cmd);
        NoOp(b, cmd);
      }
    }
  }

  lemma OneOp(b: Broker, cmd: Cmd)
    requires cmd.Register? || cmd.Unregister? || (cmd.Send? && cmd.msg.kind == KIND_MESSAGE) || cmd.Poll?
    ensures |OpsOf(b, Do(cmd))| == 1
  {
  }

  lemma NoOp(b: Broker, cmd: Cmd)
    requires cmd.Touch? || cmd.ListPeers? || cmd.Lookup? || cmd.Subscribe? || cmd.Cancel? || (cmd.Send? && cmd.msg.kind != KIND_MESSAGE)
    ensures OpsOf(b, Do(cmd)) == []
  {
  }

  lemma ChargeIsOpen(b: Broker, from: Id, now: Time)
    ensures var d := Charged(b, from, now);
            d.cfg == b.cfg && InboxesOf(d) == if from in b.sessions then InboxesOf(b) else After(InboxesOf(b), Open(from), b.cfg.maxInboxSize)
  {
    hide AfterTake;
  }

  lemma BroadcastIsMailOps(b: Broker, now: Time, from: Id, content: string, order: seq<Id>, stamps: map<Id, Stamp>, end: Time)
    ensures var a := Do(Broadcast(now, from, content, order, stamps, end));
            InboxesOf(Next(b, a)) == AfterAll(InboxesOf(b), OpsOf(b, a), b.cfg.maxInboxSize)
  {
    var boxes, max, d := InboxesOf(b), b.cfg.maxInboxSize, Charged(b, from, now);
    BroadcastInboxes(b, now, from, content, order, stamps, end);
    ChargeIsOpen(b, from, now);
    FanoutIsPuts(d, from, content, order, stamps);
    SameFanoutOps(b, d, from, content, order, stamps);
    hide Fanout, Charged, HasToken, FanoutOps, InboxesOf, After, Next;
    var open := if from in b.sessions then [] else [Open(from)];
    var puts := if HasToken(b, from, now) then FanoutOps(b, from, content, order, stamps) else [];
    AfterOne(boxes, Open(from), max);
    AfterOne(AfterAll(boxes, open, max), Open(from), max);
    AfterAllConcat(boxes, open, puts, max);
    hide AfterAll;
  }

  lemma BroadcastInboxes(b: Broker, now: Time, from: Id, content: string, order: seq<Id>, stamps: map<Id, Stamp>, end: Time)
    ensures InboxesOf(Next(b, Do(Broadcast(now, from, content, order, stamps, end)))) ==
            InboxesOf(if HasToken(b, from, now) then Fanout(Charged(b, from, now), from, content, order, stamps) else Charged(b, from, now))
  {
    hide Fanout, AfterTake, Grants;
  }

  lemma {:induction false} SameFanoutOps(b: Broker, c: Broker, from: Id, content: string, order: seq<Id>, stamps: map<Id, Stamp>)
    requires b.cfg == c.cfg
    ensures FanoutOps(b, from, content, order, stamps) == FanoutOps(c, from, content, order, stamps)
  {
    if order != [] { SameFanoutOps(b, c, from, content, order[..|order| - 1], stamps); }
  }

  // So what the inboxes hold after any run of the broker is what the slices hold after its
  // operations.
  lemma {:induction false} RunIsMailOps(b: Broker, acts: seq<Action>)
    ensures InboxesOf(Run(b, acts)) == AfterAll(InboxesOf(b), RunOps(b, acts), b.cfg.maxInboxSize)
    ensures Run(b, acts).cfg == b.cfg
  {
    hide Next, OpsOf, AfterAll;
    if acts == [] {
      AfterOne(InboxesOf(b), Take(""), b.cfg.maxInboxSize);
    } else {
      var n := |acts| - 1;
      RunIsMailOps(b, acts[..n]);
      ActionIsMailOps(Run(b, acts[..n]), acts[n]);
      Conservation.ConfigStays(Run(b, acts[..n]), acts[n]);
      AfterAllConcat(InboxesOf(b), RunOps(b, acts[..n]), OpsOf(Run(b, acts[..n]), acts[n]), b.cfg.maxInboxSize);
    }
  }

  // Poll one session, then let the broker run on in any way: the inboxes hold what the run
  // says, and the messages that the poll returned stay as they were.
  method PolledOutlivesTheRun(room: Mailroom, id: Id, ops: seq<MailOp>, ghost b: Broker, ghost acts: seq<Action>)
    returns (s: Slice<Message>)
    requires room.Valid() && room.max == b.cfg.maxInboxSize && room.Contents() == InboxesOf(b)
    requires ops == RunOps(Next(b, Do(Poll(id))), acts)
    modifies room.Owned()
    ensures InBounds(s) && Elements(s) == Conservation.InboxOf(b, id)
    ensures room.Valid() && room.Contents() == InboxesOf(Run(Next(b, Do(Poll(id))), acts))
  {
    ghost var c := Next(b, Do(Poll(id)));
    PollIsTake(b, id);
    RunIsMailOps(c, acts);
    assert id in room.boxes <==> id in room.Contents();
    assert id in b.sessions <==> id in InboxesOf(b);
    hide AfterAll, Run, RunOps, Next, After;
    s := PolledStaysPolled(room, id, ops);
  }

  lemma PollIsTake(b: Broker, id: Id)
    ensures var c := Next(b, Do(Poll(id)));
            c.cfg == b.cfg && InboxesOf(c) == After(InboxesOf(b), Take(id), b.cfg.maxInboxSize)
  {
  }
}
