// No message is lost or invented. Over any run, every ordinary or broadcast message
// accepted for a recipient has exactly one fate.
module Conservation {
  import opened Types
  import opened Inboxes
  import opened TokenBuckets
  import opened Ledgers
  import opened BrokerModel
  import opened Effects

  // What the loop accepted for recipient id in one command.
  ghost function AcceptedBy(b: Broker, a: Action, id: Id): Option<Message> {
    match a
    case Push(_, _) => None
    case Do(cmd) =>
      match cmd
      case Send(msg, msgId, at, _) =>
        if msg.to == id && id in b.sessions && msg.kind == KIND_MESSAGE then Some(Stamped(b.cfg, msg, msgId, at)) else None
      case Broadcast(now, from, content, order, stamps, _) =>
        if id in b.sessions && id != from && HasToken(b, from, now) then
          Some(Copy(b.cfg, from, content, id, StampFor(stamps, id)))
        else None
      case _ => None
  }

  // The fate of an accepted message, with the action that decided it.
  datatype Fate = Pending | PolledAt(k: nat) | EvictedAt(k: nat) | ExpiredAt(k: nat) | DroppedAt(k: nat)

  datatype Account = Account(log: seq<Message>, fates: seq<Fate>)

  // Every pending message gets the fate `to`, if it has expired by `now` or now is None.
  ghost function Decided(acc: Account, to: Fate, now: Option<Time>): (u: seq<Fate>)
    requires |acc.log| == |acc.fates|
    ensures |u| == |acc.fates|
  {
    seq(|acc.fates|, i requires 0 <= i < |acc.fates| =>
      if acc.fates[i] == Pending && (now.Some? ==> acc.log[i].Expired(now.value)) then to else acc.fates[i])
  }

  ghost function InboxOf(b: Broker, id: Id): seq<Message> {
    if id in b.sessions then b.sessions[id].inbox else []
  }

  // One more pending message, the oldest pending one making room at capacity.
  ghost function Admitted(acc: Account, m: Message, max: int, k: nat): (r: Account)
    requires |acc.log| == |acc.fates|
    ensures |r.log| == |r.fates|
  {
    var i := First(acc.fates, Pending);
    var full := |Pick(acc.log, acc.fates, Pending)| >= max && i < |acc.fates|;
    Account(acc.log + [m], (if full then acc.fates[i := EvictedAt(k)] else acc.fates) + [Pending])
  }

  // The account after action number k, taken in state b.
  ghost function Booked(acc: Account, b: Broker, a: Action, id: Id, k: nat): Account
    requires |acc.log| == |acc.fates|
  {
    var m := AcceptedBy(b, a, id);
    if m.Some? then Admitted(acc, m.value, b.cfg.maxInboxSize, k)
    else if id !in Next(b, a).sessions then acc.(fates := Decided(acc, DroppedAt(k), None))
    else
      match a
      case Do(Poll(i)) => if i == id then acc.(fates := Decided(acc, PolledAt(k), None)) else acc
      case Do(Reap(now, _)) => acc.(fates := Decided(acc, ExpiredAt(k), Some(now)))
      case _ => acc
  }

  // The account of recipient id over a whole run.
  ghost function AccountOf(b: Broker, acts: seq<Action>, id: Id): (acc: Account)
    ensures |acc.log| == |acc.fates|
  {
    if acts == [] then Account([], [])
    else
      var n := |acts| - 1;
      Booked(AccountOf(b, acts[..n], id), Run(b, acts[..n]), acts[n], id, n)
  }

  lemma AccountStep(b: Broker, acts: seq<Action>, id: Id, n: nat)
    requires n < |acts|
    ensures AccountOf(b, acts[..n + 1], id) == Booked(AccountOf(b, acts[..n], id), Run(b, acts[..n]), acts[n], id, n)
  {
    assert acts[..n + 1][..n] == acts[..n];
    hide Booked, Run;
  }

  // The log is what it says: the accepted messages, in order.
  ghost function Accepted(b: Broker, acts: seq<Action>, id: Id): seq<Message> {
    if acts == [] then []
    else
      var n := |acts| - 1;
      var m := AcceptedBy(Run(b, acts[..n]), acts[n], id);
      Accepted(b, acts[..n], id) + if m.Some? then [m.value] else []
  }

  lemma {:induction false} AccountLogsEverything(b: Broker, acts: seq<Action>, id: Id)
    ensures AccountOf(b, acts, id).log == Accepted(b, acts, id)
  {
    if acts != [] { AccountLogsEverything(b, acts[..|acts| - 1], id); }
  }

  // ---- Pending messages are the inbox --------------------------------------------

  ghost predicate Balanced(acc: Account, b: Broker, id: Id) {
    |acc.log| == |acc.fates| && Pick(acc.log, acc.fates, Pending) == InboxOf(b, id)
  }

  lemma {:induction false} DecideAll(acc: Account, to: Fate)
    requires |acc.log| == |acc.fates| && to != Pending && to !in acc.fates
    ensures var u := Decided(acc, to, None);
            && Pick(acc.log, u, Pending) == []
            && Pick(acc.log, u, to) == Pick(acc.log, acc.fates, Pending)
    decreases |acc.log|
  {
    if acc.log != [] {
      var n := |acc.log| - 1;
      var p := Account(acc.log[..n], acc.fates[..n]);
      DecideAll(p, to);
      assert Decided(acc, to, None)[..n] == Decided(p, to, None);
    }
  }

  lemma {:induction false} DecideExpired(acc: Account, to: Fate, now: Time)
    requires |acc.log| == |acc.fates| && to != Pending
    ensures Pick(acc.log, Decided(acc, to, Some(now)), Pending) == Unexpired(Pick(acc.log, acc.fates, Pending), now)
    decreases |acc.log|
  {
    if acc.log != [] {
      var n := |acc.log| - 1;
      var p := Account(acc.log[..n], acc.fates[..n]);
      var u := Decided(acc, to, Some(now));
      DecideExpired(p, to, now);
      assert u[..n] == Decided(p, to, Some(now));
      assert u[n] == Pending <==> acc.fates[n] == Pending && !acc.log[n].Expired(now);
      var q := Pick(p.log, p.fates, Pending);
      hide Decided, Pick;
      UnexpiredSnoc(q, acc.log[n], now);
      PickSnoc(acc.log, u, Pending);
      PickSnoc(acc.log, acc.fates, Pending);
    }
  }

  lemma UnexpiredSnoc(q: seq<Message>, m: Message, now: Time)
    ensures Unexpired(q + [m], now) == Unexpired(q, now) + if m.Expired(now) then [] else [m]
    ensures Unexpired(q + [], now) == Unexpired(q, now)
  {
    assert (q + [m])[..|q|] == q;
    assert q + [] == q;
  }

  lemma PickSnoc(log: seq<Message>, tags: seq<Fate>, tag: Fate)
    requires |log| == |tags| > 0
    ensures var n := |log| - 1;
            Pick(log, tags, tag) == Pick(log[..n], tags[..n], tag) + if tags[n] == tag then [log[n]] else []
  {
  }

  lemma AdmitKeepsBalance(acc: Account, m: Message, max: int, k: nat)
    requires |acc.log| == |acc.fates| && max > 0
    ensures var r := Admitted(acc, m, max, k);
            Pick(r.log, r.fates, Pending) == Enqueued(Pick(acc.log, acc.fates, Pending), m, max)
  {
    var i := First(acc.fates, Pending);
    if |Pick(acc.log, acc.fates, Pending)| >= max {
      if Pending !in acc.fates { PickNone(acc.log, acc.fates, Pending); }
      RetagFirst(acc.log, acc.fates, Pending, EvictedAt(k), Pending);
      PickAppend(acc.log, acc.fates[i := EvictedAt(k)], m, Pending, Pending);
    } else {
      PickAppend(acc.log, acc.fates, m, Pending, Pending);
    }
  }

  // The inbox of one session, from one action to the next.
  lemma InboxStep(b: Broker, a: Action, id: Id)
    requires Possible(b, a)
    ensures var m, after := AcceptedBy(b, a, id), InboxOf(Next(b, a), id);
            if m.Some? then after == Enqueued(InboxOf(b, id), m.value, b.cfg.maxInboxSize)
            else if id !in Next(b, a).sessions || (a.Do? && a.cmd == Poll(id)) then after == []
            else if a.Do? && a.cmd.Reap? then after == Unexpired(InboxOf(b, id), a.cmd.now)
            else after == InboxOf(b, id)
  {
    if a.Do? {
      EntryAfterIsRight(b, a.cmd, id);
      hide Enqueued, Unexpired, Exec;
      if a.cmd.Broadcast? { ChargedKeys(b, a.cmd.id, a.cmd.now); ChargedInbox(b, a.cmd.id, a.cmd.now); }
    }
  }

  lemma ChargedInbox(b: Broker, from: Id, now: Time)
    ensures InboxOf(Charged(b, from, now), from) == InboxOf(b, from)
  {
    hide AfterTake;
  }

  ghost predicate DecidedBefore(fates: seq<Fate>, k: nat) {
    forall i :: 0 <= i < |fates| ==> fates[i].Pending? || fates[i].k < k
  }

  lemma BookKeepsBalance(acc: Account, b: Broker, a: Action, id: Id, k: nat)
    requires Balanced(acc, b, id) && Possible(b, a) && DecidedBefore(acc.fates, k)
    ensures Balanced(Booked(acc, b, a, id, k), Next(b, a), id)
  {
    hide Next, Pick, InboxOf, Enqueued, Unexpired, AcceptedBy, Decided, Admitted;
    InboxStep(b, a, id);
    if AcceptedBy(b, a, id).Some? {
      AdmitKeepsBalance(acc, AcceptedBy(b, a, id).value, b.cfg.maxInboxSize, k);
    } else if id !in Next(b, a).sessions {
      DecideAll(acc, DroppedAt(k));
    } else if a.Do? && a.cmd == Poll(id) {
      DecideAll(acc, PolledAt(k));
    } else if a.Do? && a.cmd.Reap? {
      DecideExpired(acc, ExpiredAt(k), a.cmd.now);
    }
  }

  lemma BookDecidesNow(acc: Account, b: Broker, a: Action, id: Id, k: nat)
    requires |acc.log| == |acc.fates| && DecidedBefore(acc.fates, k)
    ensures DecidedBefore(Booked(acc, b, a, id, k).fates, k + 1)
  {
    hide Next, Pick, AcceptedBy;
  }

  // In every run, for every recipient: what is pending is what the inbox holds, and
  // every other accepted message was decided by an earlier action.
  lemma {:induction false} PendingIsTheInbox(b: Broker, acts: seq<Action>, id: Id)
    requires IsRun(b, acts) && InboxOf(b, id) == []
    ensures Balanced(AccountOf(b, acts, id), Run(b, acts), id)
    ensures DecidedBefore(AccountOf(b, acts, id).fates, |acts|)
  {
    if acts != [] {
      var n := |acts| - 1;
      PendingIsTheInbox(b, acts[..n], id);
      BookDecidesNow(AccountOf(b, acts[..n], id), Run(b, acts[..n]), acts[n], id, n);
      BookKeepsBalance(AccountOf(b, acts[..n], id), Run(b, acts[..n]), acts[n], id, n);
    }
  }

  // ---- Fates are final and have a cause --------------------------------------------

  // b extends a: a longer log, and no decided fate changed.
  ghost predicate Extends(a: Account, b: Account) {
    && |a.log| == |a.fates| <= |b.fates| == |b.log|
    && a.log == b.log[..|a.log|]
    && forall i :: 0 <= i < |a.fates| && a.fates[i] != Pending ==> b.fates[i] == a.fates[i]
  }

  lemma BookExtends(acc: Account, b: Broker, a: Action, id: Id, k: nat)
    requires |acc.log| == |acc.fates|
    ensures Extends(acc, Booked(acc, b, a, id, k))
  {
    hide Next, Pick, AcceptedBy;
  }

  lemma {:induction false} FatesAreFinal(b: Broker, acts: seq<Action>, id: Id, j: nat, n: nat)
    requires j <= n <= |acts|
    ensures Extends(AccountOf(b, acts[..j], id), AccountOf(b, acts[..n], id))
    decreases n
  {
    hide AccountOf, Booked, Run;
    if j < n {
      FatesAreFinal(b, acts, id, j, n - 1);
      AccountStep(b, acts, id, n - 1);
      BookExtends(AccountOf(b, acts[..n - 1], id), Run(b, acts[..n - 1]), acts[n - 1], id, n - 1);
    }
  }

  // Why message m met its fate.
  ghost predicate Caused(b: Broker, acts: seq<Action>, id: Id, m: Message, f: Fate) {
    match f
    case Pending => true
    case PolledAt(k) => k < |acts| && acts[k] == Do(Poll(id)) && id in Run(b, acts[..k]).sessions
    case EvictedAt(k) =>
      && k < |acts| && AcceptedBy(Run(b, acts[..k]), acts[k], id).Some?
      && |InboxOf(Run(b, acts[..k]), id)| >= Run(b, acts[..k]).cfg.maxInboxSize
    case ExpiredAt(k) => k < |acts| && acts[k].Do? && acts[k].cmd.Reap? && m.Expired(acts[k].cmd.now)
    case DroppedAt(k) => k < |acts| && id in Run(b, acts[..k]).sessions && id !in Run(b, acts[..k + 1]).sessions
  }

  lemma CauseStays(b: Broker, acts: seq<Action>, id: Id, m: Message, f: Fate)
    requires acts != [] && Caused(b, acts[..|acts| - 1], id, m, f)
    ensures Caused(b, acts, id, m, f)
  {
    if !f.Pending? {
      assert acts[..|acts| - 1][..f.k] == acts[..f.k] && acts[..|acts| - 1][..f.k + 1] == acts[..f.k + 1];
    }
  }

  lemma BookHasCause(acc: Account, b: Broker, a: Action, id: Id, k: nat, i: nat)
    requires Balanced(acc, b, id) && i < |acc.fates| && acc.fates[i] == Pending
    ensures |acc.fates| <= |Booked(acc, b, a, id, k).fates|
    ensures var f := Booked(acc, b, a, id, k).fates[i];
            match f
            case Pending => true
            case PolledAt(j) => j == k && a == Do(Poll(id)) && id in b.sessions
            case EvictedAt(j) => j == k && AcceptedBy(b, a, id).Some? && |InboxOf(b, id)| >= b.cfg.maxInboxSize
            case ExpiredAt(j) => j == k && a.Do? && a.cmd.Reap? && acc.log[i].Expired(a.cmd.now)
            case DroppedAt(j) => j == k && id in b.sessions && id !in Next(b, a).sessions
  {
    PickLength(acc.log, acc.fates, Pending);
    hide Next, Pick, AcceptedBy;
  }

  lemma {:induction false} EveryFateHasACause(b: Broker, acts: seq<Action>, id: Id, i: nat)
    requires IsRun(b, acts) && InboxOf(b, id) == []
    requires i < |AccountOf(b, acts, id).log|
    ensures var acc := AccountOf(b, acts, id); Caused(b, acts, id, acc.log[i], acc.fates[i])
  {
    if acts != [] {
      var n := |acts| - 1;
      if i < |AccountOf(b, acts[..n], id).log| {
        EveryFateHasACause(b, acts[..n], id, i);
      }
      PendingIsTheInbox(b, acts[..n], id);
      CauseStep(b, acts, id, i);
    }
  }

  lemma CauseStep(b: Broker, acts: seq<Action>, id: Id, i: nat)
    requires acts != []
    requires var n := |acts| - 1; var acc := AccountOf(b, acts[..n], id);
             && Balanced(acc, Run(b, acts[..n]), id)
             && (i < |acc.log| ==> Caused(b, acts[..n], id, acc.log[i], acc.fates[i]))
    requires i < |AccountOf(b, acts, id).log|
    ensures var acc := AccountOf(b, acts, id); Caused(b, acts, id, acc.log[i], acc.fates[i])
  {
    hide Booked, Next, AcceptedBy, Pick, InboxOf;
    var n := |acts| - 1;
    var acc, c := AccountOf(b, acts[..n], id), Run(b, acts[..n]);
    BookExtends(acc, c, acts[n], id, n);
    NewestIsPending(acc, c, acts[n], id, n);
    hide Caused;
    if i < |acc.log| && acc.fates[i] == Pending {
      CauseNow(b, acts, id, i);
    } else if i == |acc.log| {
      PendingHasCause(b, acts, id, AccountOf(b, acts, id).log[i]);
    } else if i < |acc.log| {
      CauseStays(b, acts, id, acc.log[i], acc.fates[i]);
    }
    hide Balanced;
  }

  lemma PendingHasCause(b: Broker, acts: seq<Action>, id: Id, m: Message)
    ensures Caused(b, acts, id, m, Pending)
  {
  }

  // What the last action decides about a message that was pending before.
  lemma CauseNow(b: Broker, acts: seq<Action>, id: Id, i: nat)
    requires acts != []
    requires var n := |acts| - 1; var acc := AccountOf(b, acts[..n], id);
             Balanced(acc, Run(b, acts[..n]), id) && i < |acc.log| && acc.fates[i] == Pending
    requires i < |AccountOf(b, acts, id).log|
    ensures var acc := AccountOf(b, acts, id); Caused(b, acts, id, acc.log[i], acc.fates[i])
  {
    var n := |acts| - 1;
    var acc, c := AccountOf(b, acts[..n], id), Run(b, acts[..n]);
    BookExtends(acc, c, acts[n], id, n);
    BookHasCause(acc, c, acts[n], id, n, i);
    assert AccountOf(b, acts, id) == Booked(acc, c, acts[n], id, n);
    assert acts[..n + 1] == acts && Run(b, acts) == Next(c, acts[n]);
    hide Booked, Next, AcceptedBy, Pick, InboxOf, AccountOf, Run;
  }

  lemma NewestIsPending(acc: Account, b: Broker, a: Action, id: Id, k: nat)
    requires |acc.log| == |acc.fates|
    ensures var r := Booked(acc, b, a, id, k);
            |r.log| <= |acc.log| + 1 && (|r.log| == |acc.log| + 1 ==> r.fates[|acc.log|] == Pending)
  {
    hide Next, Pick, AcceptedBy;
  }

  // ---- Eviction is only ever by overflow ---------------------------------------------

  ghost predicate EvictedAreOld(acc: Account, max: int)
    requires |acc.log| == |acc.fates|
  {
    forall i :: 0 <= i < |acc.fates| && acc.fates[i].EvictedAt? ==> |acc.log| - 1 - i >= max
  }

  lemma BookKeepsOld(acc: Account, b: Broker, a: Action, id: Id, k: nat)
    requires |acc.log| == |acc.fates| && EvictedAreOld(acc, b.cfg.maxInboxSize)
    ensures EvictedAreOld(Booked(acc, b, a, id, k), b.cfg.maxInboxSize)
  {
    var m := AcceptedBy(b, a, id);
    if m.Some? { AdmitKeepsOld(acc, m.value, b.cfg.maxInboxSize, k); }
    hide Next, Pick, AcceptedBy, Admitted;
  }

  lemma AdmitKeepsOld(acc: Account, m: Message, max: int, k: nat)
    requires |acc.log| == |acc.fates| && EvictedAreOld(acc, max)
    ensures EvictedAreOld(Admitted(acc, m, max, k), max)
  {
    PendingFitsTail(acc);
    hide Pick;
  }

  // The pending messages are all at or after the first pending one.
  lemma PendingFitsTail(acc: Account)
    requires |acc.log| == |acc.fates|
    ensures |Pick(acc.log, acc.fates, Pending)| <= |acc.log| - First(acc.fates, Pending)
  {
    var i := First(acc.fates, Pending);
    PickNone(acc.log[..i], acc.fates[..i], Pending);
    assert acc.log == acc.log[..i] + acc.log[i..] && acc.fates == acc.fates[..i] + acc.fates[i..];
    PickConcat(acc.log[..i], acc.fates[..i], acc.log[i..], acc.fates[i..], Pending);
    PickLength(acc.log[i..], acc.fates[i..], Pending);
  }

  // An evicted message has at least maxInboxSize newer accepted ones behind it.
  lemma {:induction false} EvictedByOverflow(b: Broker, acts: seq<Action>, id: Id)
    ensures EvictedAreOld(AccountOf(b, acts, id), b.cfg.maxInboxSize)
    ensures Run(b, acts).cfg == b.cfg
  {
    if acts != [] {
      var n := |acts| - 1;
      EvictedByOverflow(b, acts[..n], id);
      BookKeepsOld(AccountOf(b, acts[..n], id), Run(b, acts[..n]), acts[n], id, n);
      ConfigStays(Run(b, acts[..n]), acts[n]);
    }
  }

  lemma ConfigStays(b: Broker, a: Action)
    ensures Next(b, a).cfg == b.cfg
  {
    if a.Do? {
      match a.cmd
      case Broadcast(now, from, content, order, stamps, end) => FanoutConfig(Charged(b, from, now), from, content, order, stamps);
      case Reap(now, order) => ReapSessions(b.(clock := now), now, order);
      case _ =>
    }
  }

  lemma {:induction false} FanoutConfig(b: Broker, from: Id, content: string, order: seq<Id>, stamps: map<Id, Stamp>)
    ensures Fanout(b, from, content, order, stamps).cfg == b.cfg
  {
    if order != [] { FanoutConfig(b, from, content, order[..|order| - 1], stamps); }
  }

  // ---- A poll returns exactly the messages whose fate it is ---------------------------

  // Once action k is past, the messages polled by it never change.
  lemma {:induction false} PolledShareIsFixed(b: Broker, acts: seq<Action>, id: Id, k: nat, n: nat)
    requires k < n <= |acts|
    ensures var last, past := AccountOf(b, acts[..n], id), AccountOf(b, acts[..k + 1], id);
            Pick(last.log, last.fates, PolledAt(k)) == Pick(past.log, past.fates, PolledAt(k))
    decreases n
  {
    hide AccountOf, Booked, Run, Pick;
    if k + 1 < n {
      PolledShareIsFixed(b, acts, id, k, n - 1);
      AccountStep(b, acts, id, n - 1);
      BookKeepsShare(AccountOf(b, acts[..n - 1], id), Run(b, acts[..n - 1]), acts[n - 1], id, n - 1, PolledAt(k));
    }
  }

  lemma {:induction false} SamePick(log: seq<Message>, f: seq<Fate>, g: seq<Fate>, tag: Fate)
    requires |log| == |f| == |g|
    requires forall i :: 0 <= i < |f| ==> (f[i] == tag <==> g[i] == tag)
    ensures Pick(log, f, tag) == Pick(log, g, tag)
  {
    if log != [] {
      var n := |log| - 1;
      SamePick(log[..n], f[..n], g[..n], tag);
    }
  }

  lemma BookKeepsShare(acc: Account, b: Broker, a: Action, id: Id, k: nat, tag: Fate)
    requires |acc.log| == |acc.fates| && !tag.Pending? && tag.k != k
    ensures var r := Booked(acc, b, a, id, k); Pick(r.log, r.fates, tag) == Pick(acc.log, acc.fates, tag)
  {
    var r := Booked(acc, b, a, id, k);
    BookExtends(acc, b, a, id, k);
    NewestIsPending(acc, b, a, id, k);
    var n := |acc.log|;
    var f := r.fates[..n];
    forall i | 0 <= i < n ensures f[i] == tag <==> acc.fates[i] == tag { BookTags(acc, b, a, id, k, i); }
    SamePick(acc.log, acc.fates, f, tag);
    if |r.log| == n {
      assert r.log == acc.log && f == r.fates;
    } else {
      assert r.log == acc.log + [r.log[n]] && r.fates == f + [Pending];
      PickAppend(acc.log, f, r.log[n], Pending, tag);
    }
  }

  lemma BookTags(acc: Account, b: Broker, a: Action, id: Id, k: nat, i: nat)
    requires |acc.log| == |acc.fates| && i < |acc.fates|
    ensures var r := Booked(acc, b, a, id, k);
            |acc.fates| <= |r.fates| && (r.fates[i] == acc.fates[i] || (acc.fates[i] == Pending && r.fates[i].k == k))
  {
    hide Next, Pick, AcceptedBy;
  }

  // The reply to every successful poll, at any later time, is exactly the messages
  // whose fate is that poll: nothing is returned twice and nothing is left out.
  lemma PollsReturnTheirShare(b: Broker, acts: seq<Action>, id: Id, k: nat)
    requires IsRun(b, acts) && InboxOf(b, id) == []
    requires k < |acts| && acts[k] == Do(Poll(id)) && id in Run(b, acts[..k]).sessions
    ensures var acc := AccountOf(b, acts, id);
            Exec(Run(b, acts[..k]), Poll(id)).reply == Polled(Pick(acc.log, acc.fates, PolledAt(k)))
  {
    PrefixIsRun(b, acts, k);
    PendingIsTheInbox(b, acts[..k], id);
    PolledShareIsFixed(b, acts, id, k, |acts|);
    assert acts[..|acts|] == acts;
    AccountStep(b, acts, id, k);
    PollBooksInbox(AccountOf(b, acts[..k], id), Run(b, acts[..k]), id, k);
    hide Run, Exec, Booked, Pick, AccountOf;
  }

  lemma PollBooksInbox(acc: Account, b: Broker, id: Id, k: nat)
    requires Balanced(acc, b, id) && id in b.sessions && PolledAt(k) !in acc.fates
    ensures var r := Booked(acc, b, Do(Poll(id)), id, k);
            Exec(b, Poll(id)).reply == Polled(Pick(r.log, r.fates, PolledAt(k)))
  {
    DecideAll(acc, PolledAt(k));
    hide Pick, Decided;
  }
}
