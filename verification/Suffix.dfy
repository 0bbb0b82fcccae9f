// While every message lives equally long, as all messages sent over the wire do, an
// inbox is what was accepted since the last poll minus some of the oldest.
module Suffix {
  import opened Types
  import opened Inboxes
  import opened Ledgers
  import opened BrokerModel
  import opened Effects
  import opened Conservation

  // What was accepted for id since it was last polled, in its session's present life.
  ghost function SinceDrained(b: Broker, acts: seq<Action>, id: Id): seq<Message> {
    if acts == [] then []
    else
      var n := |acts| - 1;
      var before := Run(b, acts[..n]);
      var m := AcceptedBy(before, acts[n], id);
      if id !in Next(before, acts[n]).sessions || acts[n] == Do(Poll(id)) then []
      else SinceDrained(b, acts[..n], id) + if m.Some? then [m.value] else []
  }

  ghost predicate IsSuffix(xs: seq<Message>, ys: seq<Message>) {
    |xs| <= |ys| && xs == ys[|ys| - |xs|..]
  }

  // Oldest first, all with the same time to live.
  ghost predicate InTimeOrder(xs: seq<Message>, ttl: Duration, upTo: Time) {
    && (forall i, j :: 0 <= i < j < |xs| ==> xs[i].createdAt <= xs[j].createdAt)
    && (forall i :: 0 <= i < |xs| ==> xs[i].ttl == ttl && xs[i].createdAt <= upTo)
  }

  // No sender chose a time to live of its own.
  ghost predicate DefaultTTL(a: Action) { a.Do? && a.cmd.Send? ==> a.cmd.msg.ttl <= 0 }

  lemma {:induction false} UnexpiredIsSuffix(xs: seq<Message>, ttl: Duration, upTo: Time, now: Time)
    requires InTimeOrder(xs, ttl, upTo)
    ensures IsSuffix(Unexpired(xs, now), xs)
  {
    if xs != [] {
      var n := |xs| - 1;
      UnexpiredIsSuffix(xs[..n], ttl, upTo, now);
      if xs[n].Expired(now) { AllExpired(xs[..n], now); }
    }
  }

  lemma {:induction false} AllExpired(xs: seq<Message>, now: Time)
    requires forall i :: 0 <= i < |xs| ==> xs[i].Expired(now)
    ensures Unexpired(xs, now) == []
  {
    if xs != [] { AllExpired(xs[..|xs| - 1], now); }
  }

  // The clock never goes back, and an accepted message is stamped in between.
  lemma ClockMoves(b: Broker, a: Action, id: Id)
    requires Possible(b, a)
    ensures b.clock <= Next(b, a).clock
    ensures var m := AcceptedBy(b, a, id);
            m.Some? ==> b.clock <= m.value.createdAt <= Next(b, a).clock && m.value.ttl > 0
                        && (DefaultTTL(a) ==> m.value.ttl == b.cfg.messageTTL)
  {
    if a.Do? {
      ClockAfterIsRight(b, a.cmd);
      hide Exec;
    }
  }

  // The clock after a command is the last reading it took.
  ghost function ClockAfter(b: Broker, cmd: Cmd): Time {
    match cmd
    case Register(now, _, _) => now
    case Touch(now, _) => now
    case ListPeers(now, _) => now
    case Send(msg, _, at, tripAt) => if msg.to in b.sessions && msg.kind == KIND_MESSAGE then tripAt else at
    case Broadcast(now, from, _, _, _, end) => if HasToken(b, from, now) then end else now
    case Reap(now, _) => now
    case _ => b.clock
  }

  lemma ClockAfterIsRight(b: Broker, cmd: Cmd)
    ensures Exec(b, cmd).state.clock == ClockAfter(b, cmd)
  {
    match cmd
    case Broadcast(now, from, content, order, stamps, end) => BroadcastClock(b, now, from, content, order, stamps, end);
    case Reap(now, order) => ReapSessions(b.(clock := now), now, order);
    case _ =>
  }

  lemma BroadcastClock(b: Broker, now: Time, from: Id, content: string, order: seq<Id>, stamps: map<Id, Stamp>, end: Time)
    ensures DoBroadcast(b, now, from, content, order, stamps, end).state.clock == if HasToken(b, from, now) then end else now
  {
  }

  ghost predicate Contiguous(b: Broker, id: Id, since: seq<Message>) {
    IsSuffix(InboxOf(b, id), since) && InTimeOrder(since, b.cfg.messageTTL, b.clock)
  }

  lemma EnqueueKeepsSuffix(inbox: seq<Message>, since: seq<Message>, m: Message, max: int)
    requires IsSuffix(inbox, since) && max > 0
    ensures IsSuffix(Enqueued(inbox, m, max), since + [m])
  {
    var xs, ys := Enqueued(inbox, m, max), since + [m];
    assert forall i :: 0 <= i < |xs| ==> xs[i] == ys[|ys| - |xs| + i];
  }

  lemma AppendKeepsOrder(since: seq<Message>, m: Message, ttl: Duration, upTo: Time, later: Time)
    requires InTimeOrder(since, ttl, upTo) && m.ttl == ttl && upTo <= m.createdAt <= later
    ensures InTimeOrder(since + [m], ttl, later) && InTimeOrder(since, ttl, later)
  {
  }

  lemma ExpiryKeepsSuffix(inbox: seq<Message>, since: seq<Message>, ttl: Duration, upTo: Time, now: Time)
    requires IsSuffix(inbox, since) && InTimeOrder(since, ttl, upTo)
    ensures IsSuffix(Unexpired(inbox, now), since)
  {
    UnexpiredIsSuffix(inbox, ttl, upTo, now);
  }

  lemma StepKeepsContiguous(b: Broker, a: Action, id: Id, since: seq<Message>)
    requires Possible(b, a) && DefaultTTL(a) && Contiguous(b, id, since)
    ensures var m := AcceptedBy(b, a, id);
            var c := Next(b, a);
            Contiguous(c, id, if id !in c.sessions || a == Do(Poll(id)) then [] else since + if m.Some? then [m.value] else [])
  {
    InboxStep(b, a, id);
    ClockMoves(b, a, id);
    ConfigStays(b, a);
    assert since + [] == since;
    if AcceptedBy(b, a, id).Some? {
      var m := AcceptedBy(b, a, id).value;
      EnqueueKeepsSuffix(InboxOf(b, id), since, m, b.cfg.maxInboxSize);
      AppendKeepsOrder(since, m, b.cfg.messageTTL, b.clock, Next(b, a).clock);
    } else {
      LaterIsInOrder(since, b.cfg.messageTTL, b.clock, Next(b, a).clock);
      if a.Do? && a.cmd.Reap? { ExpiryKeepsSuffix(InboxOf(b, id), since, b.cfg.messageTTL, b.clock, a.cmd.now); }
    }
    hide Next, InboxOf, AcceptedBy, Unexpired, Enqueued, IsSuffix, InTimeOrder;
    assert IsSuffix([], []) && InTimeOrder([], b.cfg.messageTTL, Next(b, a).clock) by { NothingIsSuffix(b.cfg.messageTTL, Next(b, a).clock); }
  }

  lemma NothingIsSuffix(ttl: Duration, upTo: Time)
    ensures IsSuffix([], []) && InTimeOrder([], ttl, upTo)
  {
  }

  lemma LaterIsInOrder(since: seq<Message>, ttl: Duration, upTo: Time, later: Time)
    requires InTimeOrder(since, ttl, upTo) && upTo <= later
    ensures InTimeOrder(since, ttl, later)
  {
  }

  // Through any mix of eviction and expiry the inbox is a contiguous suffix of what
  // was accepted since the last poll.
  lemma {:induction false} InboxIsSuffix(b: Broker, acts: seq<Action>, id: Id)
    requires IsRun(b, acts) && InboxOf(b, id) == []
    requires forall i :: 0 <= i < |acts| ==> DefaultTTL(acts[i])
    ensures Contiguous(Run(b, acts), id, SinceDrained(b, acts, id))
  {
    if acts != [] {
      var n := |acts| - 1;
      InboxIsSuffix(b, acts[..n], id);
      StepKeepsContiguous(Run(b, acts[..n]), acts[n], id, SinceDrained(b, acts[..n], id));
    }
  }

  // ---- How old a polled message can be ------------------------------------------------

  // Nothing pending had outlived its TTL by `then`.
  ghost predicate FreshAt(b: Broker, id: Id, past: Time) {
    past <= b.clock && forall m :: m in InboxOf(b, id) ==> !m.Expired(past)
  }

  lemma ReapFreshens(b: Broker, a: Action, id: Id)
    requires Possible(b, a) && a.Do? && a.cmd.Reap?
    ensures FreshAt(Next(b, a), id, a.cmd.now)
  {
    InboxStep(b, a, id);
    ReapEffect(b, a.cmd.now, a.cmd.order);
    hide Exec, InboxOf;
    forall m | m in Unexpired(InboxOf(b, id), a.cmd.now) ensures !m.Expired(a.cmd.now) {
      FilterMembers(InboxOf(b, id), Live(a.cmd.now), m);
    }
  }

  lemma StepKeepsFresh(b: Broker, a: Action, id: Id, past: Time)
    requires Possible(b, a) && FreshAt(b, id, past)
    ensures FreshAt(Next(b, a), id, past)
  {
    InboxStep(b, a, id);
    ClockMoves(b, a, id);
    if a.Do? && a.cmd.Reap? {
      forall m | m in Unexpired(InboxOf(b, id), a.cmd.now) ensures m in InboxOf(b, id) {
        FilterMembers(InboxOf(b, id), Live(a.cmd.now), m);
      }
    }
    hide Next, InboxOf, AcceptedBy, Unexpired;
  }

  lemma {:induction false} FreshSinceReap(b: Broker, acts: seq<Action>, id: Id, r: nat)
    requires IsRun(b, acts) && r < |acts| && acts[r].Do? && acts[r].cmd.Reap?
    ensures FreshAt(Run(b, acts), id, acts[r].cmd.now)
    decreases |acts|
  {
    var n := |acts| - 1;
    if r == n {
      ReapFreshens(Run(b, acts[..n]), acts[n], id);
    } else {
      FreshSinceReap(b, acts[..n], id, r);
      StepKeepsFresh(Run(b, acts[..n]), acts[n], id, acts[r].cmd.now);
    }
  }

  // Expiry happens only when the broker reaps, so this is how stale a poll can be: a
  // message is never older than its TTL plus the time since the last reap before it.
  lemma PolledAgeIsBounded(b: Broker, acts: seq<Action>, id: Id, r: nat, k: nat)
    requires IsRun(b, acts) && r < k < |acts|
    requires acts[r].Do? && acts[r].cmd.Reap? && acts[k] == Do(Poll(id))
    ensures var at := Run(b, acts[..k]);
            var reply := Exec(at, Poll(id)).reply;
            reply.Polled? ==> forall m :: m in reply.msgs ==>
              at.clock - m.createdAt <= m.ttl + (at.clock - acts[r].cmd.now)
  {
    PrefixIsRun(b, acts, k);
    assert acts[..k][r] == acts[r];
    FreshSinceReap(b, acts[..k], id, r);
    var at := Run(b, acts[..k]);
    assert FreshAt(at, id, acts[r].cmd.now);
    hide Run, Exec;
    PollReply(at, id);
  }

  lemma PollReply(b: Broker, id: Id)
    ensures Exec(b, Poll(id)).reply == if id in b.sessions then Polled(InboxOf(b, id)) else UnknownSession
  {
  }

  // ---- Exactly when an expired message is still returned -----------------------------------

  // No reap among actions j + 1 to n - 1 came after the message had outlived its TTL.
  ghost predicate Spared(acts: seq<Action>, m: Message, j: nat, n: nat)
    requires n <= |acts|
  {
    forall r :: j < r < n && acts[r].Do? && acts[r].cmd.Reap? ==> !m.Expired(acts[r].cmd.now)
  }

  // Action j accepted message m, as number i of its recipient's account.
  ghost predicate Born(b: Broker, acts: seq<Action>, id: Id, i: nat, j: nat, m: Message) {
    && j < |acts| && AcceptedBy(Run(b, acts[..j]), acts[j], id) == Some(m)
    && |AccountOf(b, acts[..j], id).log| == i
  }

  // One action: a pending message stays pending, expires by a reap that comes too late for
  // it, or is polled, evicted or dropped.
  lemma PendingStep(acc: Account, b: Broker, a: Action, id: Id, k: nat, i: nat)
    requires Balanced(acc, b, id) && i < |acc.fates|
    ensures |acc.fates| <= |Booked(acc, b, a, id, k).fates|
    ensures var f := Booked(acc, b, a, id, k).fates[i];
            if acc.fates[i] != Pending then f == acc.fates[i]
            else match f
                 case Pending => a.Do? && a.cmd.Reap? ==> !acc.log[i].Expired(a.cmd.now)
                 case ExpiredAt(_) => a.Do? && a.cmd.Reap? && acc.log[i].Expired(a.cmd.now)
                 case _ => true
  {
    BookExtends(acc, b, a, id, k);
    if acc.fates[i] == Pending { BookHasCause(acc, b, a, id, k, i); }
    hide Next, Pick, AcceptedBy;
  }

  // The account right after its acceptance.
  lemma BornPending(b: Broker, acts: seq<Action>, id: Id, i: nat, j: nat, m: Message)
    requires Born(b, acts, id, i, j, m)
    ensures var acc := AccountOf(b, acts[..j + 1], id); i < |acc.log| && acc.log[i] == m && acc.fates[i] == Pending
  {
    AccountStep(b, acts, id, j);
    hide Run, AccountOf, Pick;
  }

  lemma {:induction false} PendingWhileSpared(b: Broker, acts: seq<Action>, id: Id, i: nat, j: nat, m: Message, n: nat)
    requires IsRun(b, acts) && InboxOf(b, id) == [] && Born(b, acts, id, i, j, m) && j < n <= |acts|
    ensures var acc := AccountOf(b, acts[..n], id);
            && i < |acc.log| && acc.log[i] == m
            && (acc.fates[i] == Pending ==> Spared(acts, m, j, n))
            && (acc.fates[i].ExpiredAt? ==> !Spared(acts, m, j, n))
    decreases n
  {
    hide Run, AccountOf, Booked, Born, InboxOf, IsRun;
    if n == j + 1 {
      BornPending(b, acts, id, i, j, m);
    } else {
      var k := n - 1;
      PendingWhileSpared(b, acts, id, i, j, m, k);
      var acc, c := AccountOf(b, acts[..k], id), Run(b, acts[..k]);
      PrefixIsRun(b, acts, k);
      PendingIsTheInbox(b, acts[..k], id);
      AccountStep(b, acts, id, k);
      PendingStep(acc, c, acts[k], id, k, i);
      BookExtends(acc, c, acts[k], id, k);
      assert Booked(acc, c, acts[k], id, k).log[..|acc.log|][i] == m;
      hide Balanced;
    }
  }

  // A message that was accepted by action j, and has not been polled, evicted or dropped
  // since, is returned by the poll k, expired or not, exactly if no reap in between came
  // after it had outlived its TTL.
  lemma PolledUnlessReaped(b: Broker, acts: seq<Action>, id: Id, i: nat, j: nat, m: Message, k: nat)
    requires IsRun(b, acts) && InboxOf(b, id) == [] && Born(b, acts, id, i, j, m)
    requires j < k < |acts| && acts[k] == Do(Poll(id)) && id in Run(b, acts[..k]).sessions
    requires i < |AccountOf(b, acts[..k], id).fates|
    requires var f := AccountOf(b, acts[..k], id).fates[i]; !f.PolledAt? && !f.EvictedAt? && !f.DroppedAt?
    ensures i < |AccountOf(b, acts[..k + 1], id).fates|
    ensures AccountOf(b, acts[..k + 1], id).fates[i] == PolledAt(k) <==> Spared(acts, m, j, k)
    ensures Spared(acts, m, j, k) ==> m in Exec(Run(b, acts[..k]), Poll(id)).reply.msgs
  {
    PendingWhileSpared(b, acts, id, i, j, m, k);
    PrefixIsRun(b, acts, k);
    PendingIsTheInbox(b, acts[..k], id);
    AccountStep(b, acts, id, k);
    var acc, c := AccountOf(b, acts[..k], id), Run(b, acts[..k]);
    hide Run, AccountOf, Born, Spared, IsRun;
    PollDecides(acc, c, id, k, i);
    PollReply(c, id);
    if acc.fates[i] == Pending { PickLength(acc.log, acc.fates, Pending); }
    hide Booked, Pick, InboxOf, Exec;
  }

  lemma PollDecides(acc: Account, b: Broker, id: Id, k: nat, i: nat)
    requires |acc.log| == |acc.fates| && i < |acc.fates| && id in b.sessions && DecidedBefore(acc.fates, k)
    ensures var r := Booked(acc, b, Do(Poll(id)), id, k);
            |r.fates| == |acc.fates| && r.fates[i] == if acc.fates[i] == Pending then PolledAt(k) else acc.fates[i]
  {
    hide Pick;
  }

  // Without a reap in between a poll does return expired messages.
  lemma PollCanReturnExpired(cfg: Settings)
    ensures var msg := Message("", "x", "s", "", 0, 0, "", false, KIND_MESSAGE, "");
            var acts := [Do(Register(0, "s", "p")), Do(Send(msg, "m", 0, 0)), Do(Touch(cfg.messageTTL + 1, "s"))];
            var b := Run(Init(cfg, 0), acts);
            var m := Stamped(cfg, msg, "m", 0);
            && IsRun(Init(cfg, 0), acts) && m.Expired(b.clock) && Exec(b, Poll("s")).reply == Polled([m])
  {
    var msg := Message("", "x", "s", "", 0, 0, "", false, KIND_MESSAGE, "");
    var a1, a2, a3 := Do(Register(0, "s", "p")), Do(Send(msg, "m", 0, 0)), Do(Touch(cfg.messageTTL + 1, "s"));
    var b := Init(cfg, 0);
    RunSnoc(b, [], a1);
    RunSnoc(b, [a1], a2);
    RunSnoc(b, [a1, a2], a3);
    assert [] + [a1] == [a1] && [a1] + [a2] == [a1, a2] && [a1, a2] + [a3] == [a1, a2, a3];
    var b1, b2 := Next(b, a1), Next(Next(b, a1), a2);
    StepOf(b, a1, "s");
    StepOf(b1, a2, "s");
    StepOf(b2, a3, "s");
    PollReply(Next(b2, a3), "s");
    hide Run, IsRun, Next, Exec;
  }

  lemma StepOf(b: Broker, a: Action, id: Id)
    requires a.Do? && !a.cmd.Broadcast?
    ensures var c := Next(b, a);
            && EntryAfter(b, a.cmd, id) == (if id in c.sessions then Some(c.sessions[id]) else None)
            && c.clock == ClockAfter(b, a.cmd) && c.cfg == b.cfg
  {
    EntryAfterIsRight(b, a.cmd, id);
    ClockAfterIsRight(b, a.cmd);
    ConfigStays(b, a);
    hide Exec;
  }
}
