// The broadcast limiter over whole runs of the broker, per life of a session entry.
module RateLimit {
  import opened Types
  import opened Quotients
  import opened TokenBuckets
  import opened BrokerModel
  import opened Effects
  import Conservation
  import Suffix
  import Inboxes

  // A session entry's life so far: when it was made, and its broadcasts with the
  // replies they got.
  datatype Life = Life(born: Time, takes: seq<Time>, replies: seq<Reply>)

  // The present life of entry id; an unknown sender's first broadcast begins one.
  ghost function LifeAfter(life: Life, b: Broker, a: Action, id: Id): Life {
    match a
    case Do(Register(now, i, _)) => if i == id then Life(now, [], []) else life
    case Do(Broadcast(now, from, _, _, _, _)) =>
      if from != id then life
      else
        var before := if id in b.sessions then life else Life(now, [], []);
        before.(takes := before.takes + [now], replies := before.replies + [Exec(b, a.cmd).reply])
    case _ => life
  }

  ghost function LifeOf(b: Broker, acts: seq<Action>, id: Id, n: nat): Life
    requires n <= |acts|
  {
    if n == 0 then Life(b.clock, [], []) else LifeAfter(LifeOf(b, acts, id, n - 1), Run(b, acts[..n - 1]), acts[n - 1], id)
  }

  // Its replies are what a bucket that was full at birth grants.
  ghost predicate Lawful(life: Life, burst: int, refill: Duration)
    requires burst > 0 && refill > 0
  {
    && |life.replies| == |life.takes| && Sorted(life.takes)
    && (forall i :: 0 <= i < |life.takes| ==> life.born <= life.takes[i])
    && (forall i: nat :: i < |life.takes| ==>
          (life.replies[i].Fanned? <==> Granted(Full(burst, refill, life.born), life.takes, i)))
  }

  ghost predicate Lived(life: Life, b: Broker, id: Id) {
    id in b.sessions ==>
      && b.sessions[id].bucket == AfterTakes(Full(b.cfg.broadcastBurst, b.cfg.broadcastRefill, life.born), life.takes)
      && Lawful(life, b.cfg.broadcastBurst, b.cfg.broadcastRefill)
      && life.born <= b.clock && (forall i :: 0 <= i < |life.takes| ==> life.takes[i] <= b.clock)
  }

  lemma TakeIsLawful(life: Life, burst: int, refill: Duration, now: Time, r: Reply)
    requires burst > 0 && refill > 0 && Lawful(life, burst, refill)
    requires life.born <= now && forall i :: 0 <= i < |life.takes| ==> life.takes[i] <= now
    requires r.Fanned? <==> Grants(AfterTakes(Full(burst, refill, life.born), life.takes), now)
    ensures Lawful(life.(takes := life.takes + [now], replies := life.replies + [r]), burst, refill)
    ensures AfterTakes(Full(burst, refill, life.born), life.takes + [now]) ==
            AfterTake(AfterTakes(Full(burst, refill, life.born), life.takes), now)
  {
    var full, takes := Full(burst, refill, life.born), life.takes;
    var u := takes + [now];
    assert u[..|takes|] == takes && u[..|u|] == u;
    AfterTakesPrefix(full, u, |takes|);
    forall i: nat | i < |takes| ensures Granted(full, u, i) == Granted(full, takes, i) {
      assert u[..i] == takes[..i];
    }
    hide AfterTakes, Grants;
  }

  lemma EntryOrigin(b: Broker, cmd: Cmd, id: Id)
    requires Admissible(b, cmd) && id in Exec(b, cmd).state.sessions
    ensures var bucket := Exec(b, cmd).state.sessions[id].bucket;
            match cmd
            case Register(now, i, _) => if i == id then bucket == Full(b.cfg.broadcastBurst, b.cfg.broadcastRefill, now)
                                        else id in b.sessions && bucket == b.sessions[id].bucket
            case Broadcast(now, from, _, _, _, _) =>
              if from != id then id in b.sessions && bucket == b.sessions[id].bucket
              else
                var e := if id in b.sessions then b.sessions[id].bucket else Full(b.cfg.broadcastBurst, b.cfg.broadcastRefill, now);
                bucket == AfterTake(e, now) && (Exec(b, cmd).reply.Fanned? <==> Grants(e, now))
            case _ => id in b.sessions && bucket == b.sessions[id].bucket
  {
    EntryAfterIsRight(b, cmd, id);
    if cmd.Broadcast? {
      BroadcastEffect(b, cmd.now, cmd.id, cmd.content, cmd.order, cmd.stamps, cmd.end);
      ChargedKeys(b, cmd.id, cmd.now);
    }
    hide AfterTake, Grants, Fanout, ReapEach, Inboxes.Enqueued, Inboxes.Unexpired;
  }

  // The entry's own broadcast.
  lemma TakeIsLived(life: Life, b: Broker, c: Broker, id: Id, now: Time, r: Reply)
    requires Lived(life, b, id) && c.cfg == b.cfg && b.clock <= now <= c.clock && id in c.sessions
    requires var e := if id in b.sessions then b.sessions[id].bucket else Full(b.cfg.broadcastBurst, b.cfg.broadcastRefill, now);
             c.sessions[id].bucket == AfterTake(e, now) && (r.Fanned? <==> Grants(e, now))
    ensures var before := if id in b.sessions then life else Life(now, [], []);
            Lived(before.(takes := before.takes + [now], replies := before.replies + [r]), c, id)
  {
    var before := if id in b.sessions then life else Life(now, [], []);
    NewLifeIsLawful(now, b.cfg.broadcastBurst, b.cfg.broadcastRefill);
    hide Lawful, AfterTakes, AfterTake, Grants, Full;
    TakeIsLawful(before, b.cfg.broadcastBurst, b.cfg.broadcastRefill, now, r);
  }

  // A new session, and everything that leaves the bucket alone.
  lemma OtherIsLived(life: Life, b: Broker, c: Broker, id: Id, now: Time)
    requires Lived(life, b, id) && c.cfg == b.cfg && b.clock <= c.clock
    ensures (id in c.sessions && now <= c.clock && c.sessions[id].bucket == Full(b.cfg.broadcastBurst, b.cfg.broadcastRefill, now))
            ==> Lived(Life(now, [], []), c, id)
    ensures id in c.sessions && id in b.sessions && c.sessions[id].bucket == b.sessions[id].bucket ==> Lived(life, c, id)
  {
    NewLifeIsLawful(now, b.cfg.broadcastBurst, b.cfg.broadcastRefill);
    hide Lawful, AfterTakes, Full;
  }

  lemma StepIsLived(life: Life, b: Broker, a: Action, id: Id)
    requires Lived(life, b, id) && Possible(b, a)
    ensures Lived(LifeAfter(life, b, a, id), Next(b, a), id)
  {
    var c := Next(b, a);
    Conservation.ConfigStays(b, a);
    Suffix.ClockMoves(b, a, id);
    if id !in c.sessions {
      GoneIsLived(LifeAfter(life, b, a, id), c, id);
    } else if a.Push? {
      OtherIsLived(life, b, c, id, c.clock);
    } else {
      Suffix.ClockAfterIsRight(b, a.cmd);
      EntryOrigin(b, a.cmd, id);
      hide Exec, Lived, AfterTake, Grants, Full;
      match a.cmd
      case Broadcast(now, from, _, _, _, _) =>
        if from == id {
          TakeIsLived(life, b, c, id, now, Exec(b, a.cmd).reply);
        } else {
          OtherIsLived(life, b, c, id, now);
        }
      case Register(now, _, _) => OtherIsLived(life, b, c, id, now);
      case _ => OtherIsLived(life, b, c, id, c.clock);
    }
  }

  lemma GoneIsLived(life: Life, b: Broker, id: Id)
    requires id !in b.sessions
    ensures Lived(life, b, id)
  {
  }

  lemma NewLifeIsLawful(now: Time, burst: int, refill: Duration)
    requires burst > 0 && refill > 0
    ensures Lawful(Life(now, [], []), burst, refill)
    ensures AfterTakes(Full(burst, refill, now), []) == Full(burst, refill, now)
  {
  }

  lemma {:induction false} RunIsLived(b: Broker, acts: seq<Action>, id: Id, n: nat)
    requires IsRun(b, acts) && n <= |acts| && b.sessions == map[]
    ensures Lived(LifeOf(b, acts, id, n), Run(b, acts[..n]), id)
    ensures Run(b, acts[..n]).cfg == b.cfg
    decreases n
  {
    hide Lived, Next;
    if n > 0 {
      RunIsLived(b, acts, id, n - 1);
      PrefixIsRun(b, acts, n - 1);
      StepIsLived(LifeOf(b, acts, id, n - 1), Run(b, acts[..n - 1]), acts[n - 1], id);
      Conservation.ConfigStays(Run(b, acts[..n - 1]), acts[n - 1]);
    } else {
      GoneIsLived(LifeOf(b, acts, id, 0), b, id);
      assert acts[..0] == [];
    }
  }

  // How many of the broadcasts i, .., j-1 went out.
  function WentOut(replies: seq<Reply>, i: nat, j: nat): nat
    requires i <= j <= |replies|
    decreases j
  {
    if i == j then 0 else WentOut(replies, i, j - 1) + if replies[j - 1].Fanned? then 1 else 0
  }

  lemma {:induction false} WentOutIsSuccesses(full: LiveBucket, takes: seq<Time>, replies: seq<Reply>, i: nat, j: nat)
    requires |takes| == |replies| && i <= j <= |takes|
    requires forall i: nat :: i < |takes| ==> (replies[i].Fanned? <==> Granted(full, takes, i))
    ensures WentOut(replies, i, j) == Successes(full, takes, i, j)
    decreases j
  {
    if i < j {
      WentOutIsSuccesses(full, takes, replies, i, j - 1);
      assert replies[j - 1].Fanned? <==> Granted(full, takes, j - 1);
    }
  }

  lemma LawfulInWindow(life: Life, burst: int, refill: Duration, i: nat, j: nat, s: Time, e: Time)
    requires burst > 0 && refill > 0 && Lawful(life, burst, refill)
    requires i <= j <= |life.takes| && s <= e && forall k :: i <= k < j ==> s <= life.takes[k] <= e
    ensures WentOut(life.replies, i, j) <= burst + CeilDiv(e - s, refill)
    ensures i == 0 && life.born <= e ==> WentOut(life.replies, 0, j) <= burst + (e - life.born) / refill
  {
    WentOutIsSuccesses(Full(burst, refill, life.born), life.takes, life.replies, i, j);
    GrantsInWindow(burst, refill, life.born, life.takes, i, j, s, e);
    if i == 0 && life.born <= e { GrantsSinceCreation(burst, refill, life.born, life.takes, j, e); }
    hide Successes, WentOut, Granted, CeilDiv;
  }

  lemma LawfulAfterQuiet(life: Life, burst: int, refill: Duration, k: nat)
    requires burst > 0 && refill > 0 && Lawful(life, burst, refill) && k < |life.takes|
    requires forall l :: 0 <= l < k && life.takes[l] > life.takes[k] - refill ==> !life.replies[l].Fanned?
    ensures life.replies[k].Fanned?
  {
    hide Granted;
    GrantedAfterQuiet(burst, refill, life.born, life.takes, k);
  }

  lemma RunIsLawful(cfg: Settings, t: Time, acts: seq<Action>, id: Id)
    requires IsRun(Init(cfg, t), acts) && id in Run(Init(cfg, t), acts).sessions
    ensures Lawful(LifeOf(Init(cfg, t), acts, id, |acts|), cfg.broadcastBurst, cfg.broadcastRefill)
  {
    RunIsLived(Init(cfg, t), acts, id, |acts|);
    assert acts[..|acts|] == acts;
    hide Lawful, Run, IsRun, LifeOf, AfterTakes;
  }

  // Over any run, in any window [s, e], one life of a session entry gets at most the
  // burst plus one broadcast per refill interval begun; up to any time after its
  // creation, at most the burst plus one per whole interval.
  lemma BroadcastsAreLimited(cfg: Settings, t: Time, acts: seq<Action>, id: Id, i: nat, j: nat, s: Time, e: Time)
    requires IsRun(Init(cfg, t), acts) && id in Run(Init(cfg, t), acts).sessions
    requires var life := LifeOf(Init(cfg, t), acts, id, |acts|);
             i <= j <= |life.takes| && s <= e && forall k :: i <= k < j ==> s <= life.takes[k] <= e
    ensures var life := LifeOf(Init(cfg, t), acts, id, |acts|);
            && j <= |life.replies|
            && WentOut(life.replies, i, j) <= cfg.broadcastBurst + CeilDiv(e - s, cfg.broadcastRefill)
            && (i == 0 && life.born <= e ==> WentOut(life.replies, 0, j) <= cfg.broadcastBurst + (e - life.born) / cfg.broadcastRefill)
  {
    RunIsLawful(cfg, t, acts, id);
    hide Run, IsRun, LifeOf, WentOut, CeilDiv;
    LawfulInWindow(LifeOf(Init(cfg, t), acts, id, |acts|), cfg.broadcastBurst, cfg.broadcastRefill, i, j, s, e);
  }

  // A broadcast is never refused to an entry that got none out during the last
  // refill interval.
  lemma QuietSenderIsServed(cfg: Settings, t: Time, acts: seq<Action>, id: Id, k: nat)
    requires IsRun(Init(cfg, t), acts) && id in Run(Init(cfg, t), acts).sessions
    requires var life := LifeOf(Init(cfg, t), acts, id, |acts|);
             && k < |life.takes| && |life.takes| == |life.replies|
             && forall l :: 0 <= l < k && life.takes[l] > life.takes[k] - cfg.broadcastRefill ==> !life.replies[l].Fanned?
    ensures LifeOf(Init(cfg, t), acts, id, |acts|).replies[k].Fanned?
  {
    RunIsLawful(cfg, t, acts, id);
    hide Run, IsRun, LifeOf, Lawful;
    LawfulAfterQuiet(LifeOf(Init(cfg, t), acts, id, |acts|), cfg.broadcastBurst, cfg.broadcastRefill, k);
  }

  lemma LawfulRefusal(life: Life, burst: int, refill: Duration, k: nat)
    requires burst > 0 && refill > 0 && Lawful(life, burst, refill) && k < |life.takes| && !life.replies[k].Fanned?
    ensures WentOut(life.replies, 0, k) >= burst
  {
    RefusedOnlyAfterBurst(burst, refill, life.born, life.takes, k);
    WentOutIsSuccesses(Full(burst, refill, life.born), life.takes, life.replies, 0, k);
    hide Successes, WentOut, Granted;
  }

  // Nor to one that has got out fewer than its burst in its life.
  lemma RefusedOnlyAfterItsBurst(cfg: Settings, t: Time, acts: seq<Action>, id: Id, k: nat)
    requires IsRun(Init(cfg, t), acts) && id in Run(Init(cfg, t), acts).sessions
    requires var life := LifeOf(Init(cfg, t), acts, id, |acts|);
             k < |life.takes| && |life.takes| == |life.replies| && !life.replies[k].Fanned?
    ensures WentOut(LifeOf(Init(cfg, t), acts, id, |acts|).replies, 0, k) >= cfg.broadcastBurst
  {
    RunIsLawful(cfg, t, acts, id);
    hide Run, IsRun, LifeOf, Lawful, WentOut;
    LawfulRefusal(LifeOf(Init(cfg, t), acts, id, |acts|), cfg.broadcastBurst, cfg.broadcastRefill, k);
  }
}
