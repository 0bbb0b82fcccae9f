// The delivery worker of one subscription (internal/broker/pusher.go): a bounded
// mailbox written by the run loop, a bounded output channel closed by the worker,
// and a one-slot stop channel. The worker's goroutine is a step system; every
// `select` is a choice among the enabled steps.
module Pushers {
  import opened Types
  import opened Ledgers

  const OUT_BUFFER := 16

  datatype Phase =
    | Idle                 // at the select of the run loop
    | Holding(ev: Event)   // inside forward
    | Exited               // out is closed

  // What became of an event the run loop handed over.
  datatype Fate = Queued | InHand | Sent | LostAtMailbox | LostAtOut

  datatype PusherState = PusherState(
    owner: Id, cap: nat,
    mailbox: seq<Event>, out: seq<Event>, stop: bool, closed: bool, phase: Phase,
    // History: every event handed over and its fate, what the subscriber has read,
    // how often a stop was signalled, and whether a channel rule was ever broken.
    handed: seq<Event>, fates: seq<Fate>, received: seq<Event>, stops: nat, panicked: bool)

  function New(owner: Id, cap: nat): PusherState {
    PusherState(owner, cap, [], [], false, false, Idle, [], [], [], 0, false)
  }

  // enqueue: a try-send on the mailbox, by the run loop.
  function Hand(p: PusherState, ev: Event): PusherState {
    if |p.mailbox| < p.cap then
      p.(mailbox := p.mailbox + [ev], handed := p.handed + [ev], fates := p.fates + [Queued])
    else
      p.(handed := p.handed + [ev], fates := p.fates + [LostAtMailbox])
  }

  // stopPush: a try-send on the stop channel, by the run loop.
  function Stopped(p: PusherState): PusherState { p.(stop := true, stops := p.stops + 1) }

  datatype Step =
    | TakeStop     // run's select receives the stop signal and returns, closing out
    | TakeMail     // run's select receives from the mailbox
    | SendOut      // forward's send succeeds
    | DropFull     // the default branch of a non-blocking forward
    | TimerFires   // the timeout branch of a blocking forward
    | Receive      // the subscriber reads from out

  predicate Enabled(p: PusherState, s: Step) {
    match s
    case TakeStop => p.phase.Idle? && p.stop
    case TakeMail => p.phase.Idle? && p.mailbox != []
    case SendOut => p.phase.Holding? && (|p.out| < OUT_BUFFER || p.closed)
    case DropFull => p.phase.Holding? && !p.phase.ev.Blocking() && |p.out| >= OUT_BUFFER
    case TimerFires => p.phase.Holding? && p.phase.ev.Blocking()
    case Receive => p.out != []
  }

  function Retag(p: PusherState, from: Fate, to: Fate): seq<Fate> {
    FirstRetagged(p.fates, from, to)
  }

  function FirstRetagged(fates: seq<Fate>, from: Fate, to: Fate): seq<Fate> {
    if fates == [] then []
    else if fates[0] == from then [to] + fates[1..]
    else [fates[0]] + FirstRetagged(fates[1..], from, to)
  }

  function After(p: PusherState, s: Step): PusherState
    requires Enabled(p, s)
  {
    match s
    case TakeStop => p.(stop := false, phase := Exited, closed := true, panicked := p.panicked || p.closed)
    case TakeMail => p.(mailbox := p.mailbox[1..], phase := Holding(p.mailbox[0]), fates := Retag(p, Queued, InHand))
    case SendOut => p.(out := p.out + [p.phase.ev], phase := Idle, fates := Retag(p, InHand, Sent), panicked := p.panicked || p.closed)
    case DropFull => p.(phase := Idle, fates := Retag(p, InHand, LostAtOut))
    case TimerFires => p.(phase := Idle, fates := Retag(p, InHand, LostAtOut))
    case Receive => p.(out := p.out[1..], received := p.received + [p.out[0]])
  }

  // What a subscriber must not miss for want of room: a message that belongs to a thread.
  predicate Threaded(ev: Event) { ev.MessageEvent? && (ev.msg.inReplyTo != "" || ev.msg.expectsReply) }

  // The event in hand leaves forward by a send, a drop or the timer, and by the timer only
  // if it is threaded. It is never held up by room in out; without room, it is dropped at
  // once exactly if it is not threaded.
  lemma TieredPush(p: PusherState)
    requires p.phase.Holding? && !p.closed
    ensures Enabled(p, SendOut) <==> |p.out| < 16
    ensures Enabled(p, DropFull) <==> |p.out| >= 16 && !Threaded(p.phase.ev)
    ensures Enabled(p, TimerFires) <==> Threaded(p.phase.ev)
    ensures forall s :: Enabled(p, s) && !After(p, s).phase.Holding? ==> s in {SendOut, DropFull, TimerFires}
  {
  }

  // ---- The account of a pusher -------------------------------------------------

  ghost predicate InOrder(fates: seq<Fate>) {
    && (forall i, j :: 0 <= i < j < |fates| && fates[i] in {InHand, Queued} ==> fates[j] != Sent)
    && (forall i, j :: 0 <= i < j < |fates| && fates[i] == Queued ==> fates[j] != InHand)
  }

  // Every handed-over event is in exactly one place, and order is kept everywhere.
  ghost predicate Accounted(p: PusherState) {
    && |p.fates| == |p.handed|
    && Pick(p.handed, p.fates, Queued) == p.mailbox
    && Pick(p.handed, p.fates, InHand) == (if p.phase.Holding? then [p.phase.ev] else [])
    && Pick(p.handed, p.fates, Sent) == p.received + p.out
    && InOrder(p.fates)
  }

  // The worker is the only sender on out and closes it at most once.
  ghost predicate Owned(p: PusherState) {
    && |p.mailbox| <= p.cap && |p.out| <= OUT_BUFFER
    && (p.closed <==> p.phase.Exited?)
    && (p.stops > 0 <==> p.stop || p.phase.Exited?)
    && !p.panicked
  }

  lemma {:induction false} RetaggedIsFirst(fates: seq<Fate>, from: Fate, to: Fate)
    requires from in fates
    ensures var i := First(fates, from); i < |fates| && FirstRetagged(fates, from, to) == fates[i := to]
  {
    if fates[0] != from {
      assert from in fates[1..];
      RetaggedIsFirst(fates[1..], from, to);
    }
  }

  lemma {:induction false} RetagsOnly(fates: seq<Fate>, from: Fate, to: Fate)
    ensures var u := FirstRetagged(fates, from, to);
            |u| == |fates| && forall i :: 0 <= i < |u| ==> u[i] == fates[i] || (fates[i] == from && u[i] == to)
  {
    if fates != [] { RetagsOnly(fates[1..], from, to); }
  }

  lemma NewIsAccounted(owner: Id, cap: nat)
    ensures Accounted(New(owner, cap)) && Owned(New(owner, cap)) && LossesEarned(New(owner, cap))
  {
  }

  lemma HandKeepsAccount(p: PusherState, ev: Event)
    requires Accounted(p)
    ensures Accounted(Hand(p, ev))
  {
    hide InOrder, Pick;
    var f := if |p.mailbox| < p.cap then Queued else LostAtMailbox;
    OrderSurvivesHandOver(p.fates, f);
    PickAppend(p.handed, p.fates, ev, f, Queued);
    PickAppend(p.handed, p.fates, ev, f, InHand);
    PickAppend(p.handed, p.fates, ev, f, Sent);
  }

  lemma OrderSurvivesHandOver(fates: seq<Fate>, f: Fate)
    requires InOrder(fates) && f in {Queued, LostAtMailbox}
    ensures InOrder(fates + [f])
  {
  }

  lemma StepKeepsAccount(p: PusherState, s: Step)
    requires Accounted(p) && Enabled(p, s)
    ensures Accounted(After(p, s))
  {
    hide InOrder, Pick, FirstRetagged;
    match s
    case TakeStop =>
    case Receive =>
      assert p.received + p.out == (p.received + [p.out[0]]) + p.out[1..];
    case TakeMail => MailMoves(p);
    case SendOut =>
      HandMoves(p, Sent);
      assert p.received + p.out + [p.phase.ev] == p.received + (p.out + [p.phase.ev]);
    case DropFull => HandMoves(p, LostAtOut);
    case TimerFires => HandMoves(p, LostAtOut);
  }

  // The head of the mailbox becomes the event in hand.
  lemma MailMoves(p: PusherState)
    requires Accounted(p) && p.phase.Idle? && p.mailbox != []
    ensures Accounted(After(p, TakeMail))
  {
    PickLength(p.handed, p.fates, InHand);
    if Queued !in p.fates { PickNone(p.handed, p.fates, Queued); }
    RetaggedIsFirst(p.fates, Queued, InHand);
    RetagFirst(p.handed, p.fates, Queued, InHand, Sent);
    OrderSurvivesMail(p.fates, First(p.fates, Queued));
  }

  // Letting go of the event in hand, as sent or as lost.
  lemma HandMoves(p: PusherState, to: Fate)
    requires Accounted(p) && p.phase.Holding? && to in {Sent, LostAtOut}
    ensures var u := Retag(p, InHand, to);
            && |u| == |p.fates| && InOrder(u)
            && Pick(p.handed, u, Queued) == p.mailbox && Pick(p.handed, u, InHand) == []
            && Pick(p.handed, u, Sent) == p.received + p.out + if to == Sent then [p.phase.ev] else []
  {
    var i := First(p.fates, InHand);
    if InHand !in p.fates { PickNone(p.handed, p.fates, InHand); }
    RetaggedIsFirst(p.fates, InHand, to);
    OrderSurvivesHand(p.fates, i, to);
    hide InOrder, Pick, First;
    RetagFirst(p.handed, p.fates, InHand, to, Queued);
    RetagFirst(p.handed, p.fates, InHand, to, Sent);
    var rest := Pick(p.handed, p.fates[i := to], InHand);
    assert |[p.handed[i]] + rest| == 1 && ([p.handed[i]] + rest)[0] == p.phase.ev;
  }

  lemma OrderSurvivesMail(fates: seq<Fate>, i: nat)
    requires InOrder(fates) && i < |fates| && fates[i] == Queued && Queued !in fates[..i] && InHand !in fates
    ensures InOrder(fates[i := InHand])
  {
    forall k | 0 <= k < i ensures fates[k] != Queued { assert fates[k] in fates[..i]; }
  }

  lemma OrderSurvivesHand(fates: seq<Fate>, i: nat, to: Fate)
    requires InOrder(fates) && i < |fates| && fates[i] == InHand && InHand !in fates[..i] && to in {Sent, LostAtOut}
    ensures InOrder(fates[i := to]) && Sent !in fates[i..]
  {
    forall k | 0 <= k < i ensures fates[k] !in {Queued, InHand} { assert fates[k] in fates[..i]; }
  }

  lemma StepKeepsOwnership(p: PusherState, s: Step)
    requires Owned(p) && Enabled(p, s)
    ensures Owned(After(p, s))
  {
  }

  // ---- Counting fates --------------------------------------------------------------

  function Tally(fates: seq<Fate>, which: set<Fate>): nat {
    if fates == [] then 0
    else Tally(fates[..|fates| - 1], which) + if fates[|fates| - 1] in which then 1 else 0
  }

  lemma {:induction false} TallyIsPick(handed: seq<Event>, fates: seq<Fate>, f: Fate)
    requires |handed| == |fates|
    ensures Tally(fates, {f}) == |Pick(handed, fates, f)|
  {
    if handed != [] {
      var n := |handed| - 1;
      TallyIsPick(handed[..n], fates[..n], f);
    }
  }

  lemma {:induction false} TallyCoversAll(fates: seq<Fate>)
    ensures |fates| == Tally(fates, {Queued}) + Tally(fates, {InHand}) + Tally(fates, {Sent})
                       + Tally(fates, {LostAtMailbox}) + Tally(fates, {LostAtOut})
  {
    if fates != [] {
      TallyCoversAll(fates[..|fates| - 1]);
      match fates[|fates| - 1] case Queued => case InHand => case Sent => case LostAtMailbox => case LostAtOut =>
    }
  }

  lemma {:induction false} TallyGrows(a: seq<Fate>, some: set<Fate>, b: seq<Fate>, more: set<Fate>)
    requires |a| == |b| && forall i :: 0 <= i < |a| && a[i] in some ==> b[i] in more
    ensures Tally(a, some) <= Tally(b, more) <= |b|
  {
    if a != [] {
      var n := |a| - 1;
      TallyGrows(a[..n], some, b[..n], more);
    }
  }

  lemma {:induction false} TallyStopsAt(fates: seq<Fate>, i: nat, f: Fate)
    requires i <= |fates| && f !in fates[i..]
    ensures Tally(fates, {f}) == Tally(fates[..i], {f})
    decreases |fates|
  {
    if i < |fates| {
      var n := |fates| - 1;
      assert fates[n] == fates[i..][n - i];
      assert fates[..n][i..] == fates[i..][..n - i] && fates[..n][..i] == fates[..i];
      TallyStopsAt(fates[..n], i, f);
    } else {
      assert fates[..i] == fates;
    }
  }

  // Nothing is counted twice and nothing is missing: an event that was handed over lies in
  // the mailbox, is in hand, lies in out, was read, or was lost in one of the two places.
  lemma ExactAccount(p: PusherState)
    requires Accounted(p)
    ensures |p.handed| == |p.mailbox| + (if p.phase.Holding? then 1 else 0) + |p.out| + |p.received|
                          + |Pick(p.handed, p.fates, LostAtMailbox)| + |Pick(p.handed, p.fates, LostAtOut)|
  {
    TallyCoversAll(p.fates);
    TallyIsPick(p.handed, p.fates, Queued);
    TallyIsPick(p.handed, p.fates, InHand);
    TallyIsPick(p.handed, p.fates, Sent);
    TallyIsPick(p.handed, p.fates, LostAtMailbox);
    TallyIsPick(p.handed, p.fates, LostAtOut);
    hide Tally, Pick, InOrder;
  }

  // ---- Why events are lost -----------------------------------------------------------

  // The fates of events that got past the mailbox's capacity.
  const ENTERED: set<Fate> := {Queued, InHand, Sent, LostAtOut}

  // An event lost at the mailbox came after a mailbox-full of events that had got in, and
  // one that would not wait at out came after an out-full of events that had been sent.
  ghost predicate LossesEarned(p: PusherState) {
    && |p.fates| == |p.handed|
    && forall i :: 0 <= i < |p.fates| ==> LossEarned(p, p.fates, i)
  }

  ghost predicate LossEarned(p: PusherState, fates: seq<Fate>, i: nat)
    requires i < |fates| <= |p.handed|
  {
    && (fates[i] == LostAtMailbox ==> Tally(fates[..i], ENTERED) >= p.cap)
    && (fates[i] == LostAtOut && !p.handed[i].Blocking() ==> Tally(fates[..i], {Sent}) >= OUT_BUFFER)
  }

  lemma HandKeepsLosses(p: PusherState, ev: Event)
    requires Accounted(p) && LossesEarned(p)
    ensures LossesEarned(Hand(p, ev))
  {
    MailboxEntered(p);
    hide Accounted, Tally;
    var q := Hand(p, ev);
    var n := |p.fates|;
    forall i | 0 <= i < |q.fates| ensures LossEarned(q, q.fates, i) {
      if i < n {
        assert LossEarned(p, p.fates, i);
        assert q.fates[..i] == p.fates[..i];
      } else {
        assert q.fates[..i] == p.fates;
      }
    }
  }

  lemma MailboxEntered(p: PusherState)
    requires Accounted(p)
    ensures Tally(p.fates, ENTERED) >= |p.mailbox|
  {
    hide InOrder;
    TallyIsPick(p.handed, p.fates, Queued);
    TallyGrows(p.fates, {Queued}, p.fates, ENTERED);
  }

  // One event moves on: nothing already lost changes, and what was sent stays sent.
  lemma MoveKeepsLosses(p: PusherState, q: PusherState, i: nat, to: Fate)
    requires LossesEarned(p) && q.handed == p.handed && q.cap == p.cap
    requires i < |p.fates| && p.fates[i] in {Queued, InHand} && to in ENTERED && q.fates == p.fates[i := to]
    requires to == LostAtOut && !p.handed[i].Blocking() ==> Tally(p.fates[..i], {Sent}) >= OUT_BUFFER
    ensures LossesEarned(q)
  {
    forall j | 0 <= j < |q.fates| ensures LossEarned(q, q.fates, j) {
      assert LossEarned(p, p.fates, j);
      TallyGrows(p.fates[..j], ENTERED, q.fates[..j], ENTERED);
      TallyGrows(p.fates[..j], {Sent}, q.fates[..j], {Sent});
    }
  }

  lemma StepKeepsLosses(p: PusherState, s: Step)
    requires Accounted(p) && LossesEarned(p) && Enabled(p, s)
    ensures LossesEarned(After(p, s))
  {
    var q := After(p, s);
    if s.TakeMail? {
      if Queued !in p.fates { PickNone(p.handed, p.fates, Queued); }
      RetaggedIsFirst(p.fates, Queued, InHand);
      hide Accounted, LossesEarned;
      MoveKeepsLosses(p, q, First(p.fates, Queued), InHand);
    } else if !s.TakeStop? && !s.Receive? {
      var to := if s.SendOut? then Sent else LostAtOut;
      if InHand !in p.fates { PickNone(p.handed, p.fates, InHand); }
      RetaggedIsFirst(p.fates, InHand, to);
      HandIsNext(p);
      hide Accounted, LossesEarned;
      MoveKeepsLosses(p, q, First(p.fates, InHand), to);
    } else {
      LossesRest(p, q);
    }
  }

  lemma LossesRest(p: PusherState, q: PusherState)
    requires LossesEarned(p) && q.handed == p.handed && q.fates == p.fates && q.cap == p.cap
    ensures LossesEarned(q)
  {
    forall i | 0 <= i < |q.fates| ensures LossEarned(q, q.fates, i) { assert LossEarned(p, p.fates, i); }
  }

  // The event in hand, and everything sent came before it.
  lemma HandIsNext(p: PusherState)
    requires Accounted(p) && p.phase.Holding?
    ensures var i := First(p.fates, InHand);
            i < |p.fates| && p.handed[i] == p.phase.ev && Tally(p.fates[..i], {Sent}) == |p.received| + |p.out|
  {
    var i := First(p.fates, InHand);
    if InHand !in p.fates { PickNone(p.handed, p.fates, InHand); }
    RetagFirst(p.handed, p.fates, InHand, Sent, Queued);
    assert ([p.handed[i]] + Pick(p.handed, p.fates[i := Sent], InHand))[0] == p.handed[i];
    OrderSurvivesHand(p.fates, i, Sent);
    TallyStopsAt(p.fates, i, Sent);
    TallyIsPick(p.handed, p.fates, Sent);
  }

  // So a subscription that has been handed no more than a mailbox-full of events has lost
  // none at the mailbox, and one with no more than an out-full none but by a timeout.
  lemma LossNeedsFullChannel(p: PusherState, i: nat)
    requires LossesEarned(p) && i < |p.handed|
    ensures p.fates[i] == LostAtMailbox ==> i >= p.cap
    ensures p.fates[i] == LostAtOut ==> i >= OUT_BUFFER || p.handed[i].Blocking()
  {
    assert LossEarned(p, p.fates, i);
    TallyGrows(p.fates[..i], ENTERED, p.fates[..i], ENTERED);
    TallyGrows(p.fates[..i], {Sent}, p.fates[..i], {Sent});
  }

  // What the subscriber reads, and what it can still read, comes in hand-over order.
  lemma DeliveryIsFifo(p: PusherState)
    requires Accounted(p)
    ensures Subsequence(p.received + p.out, p.handed)
  {
    PickIsSubsequence(p.handed, p.fates, Sent);
  }

  // ---- Termination after a stop ---------------------------------------------------

  ghost predicate IsRun(p: PusherState, steps: seq<Step>)
    decreases |steps|
  {
    steps == [] || (Enabled(p, steps[0]) && IsRun(After(p, steps[0]), steps[1..]))
  }

  ghost function AfterAll(p: PusherState, steps: seq<Step>): PusherState
    requires IsRun(p, steps)
    decreases |steps|
  {
    if steps == [] then p else AfterAll(After(p, steps[0]), steps[1..])
  }

  // Iterations of the run loop, and steps of the worker, in a run that the
  // subscriber may interleave with.
  function Iterations(steps: seq<Step>): nat {
    if steps == [] then 0 else (if steps[0] in {TakeStop, TakeMail} then 1 else 0) + Iterations(steps[1..])
  }

  function OwnSteps(steps: seq<Step>): nat {
    if steps == [] then 0 else (if steps[0] != Receive then 1 else 0) + OwnSteps(steps[1..])
  }

  // With no more hand-overs the worker can take at most |mailbox| + 1 turns of its
  // loop, whatever its selects choose and whatever the subscriber does.
  lemma {:induction false} StoppedRunIsShort(p: PusherState, steps: seq<Step>)
    requires IsRun(p, steps)
    ensures !p.phase.Exited? ==> Iterations(steps) <= |p.mailbox| + 1
    ensures p.phase.Exited? ==> OwnSteps(steps) == 0
    ensures OwnSteps(steps) <= 2 * |p.mailbox| + (if p.phase.Holding? then 2 else 1)
    decreases |steps|
  {
    if steps != [] {
      StoppedRunIsShort(After(p, steps[0]), steps[1..]);
      if After(p, steps[0]).phase.Exited? { IterationsNeedOwnSteps(steps[1..]); }
    }
  }

  lemma {:induction false} IterationsNeedOwnSteps(steps: seq<Step>)
    ensures Iterations(steps) <= OwnSteps(steps)
  {
    if steps != [] { IterationsNeedOwnSteps(steps[1..]); }
  }

  // A stopped worker always has a step of its own, so a run that cannot be
  // extended has closed out.
  lemma StoppedWorkerCanMove(p: PusherState)
    requires p.stop && !p.phase.Exited?
    ensures exists s :: s != Receive && Enabled(p, s)
  {
    if p.phase.Idle? {
      assert Enabled(p, TakeStop);
    } else if p.phase.ev.Blocking() {
      assert Enabled(p, TimerFires);
    } else {
      assert Enabled(p, SendOut) || Enabled(p, DropFull);
    }
  }

  lemma {:induction false} AfterAllExtends(p: PusherState, steps: seq<Step>, s: Step)
    requires IsRun(p, steps) && Enabled(AfterAll(p, steps), s)
    ensures IsRun(p, steps + [s]) && AfterAll(p, steps + [s]) == After(AfterAll(p, steps), s)
    ensures Iterations(steps + [s]) == Iterations(steps) + if s in {TakeStop, TakeMail} then 1 else 0
    decreases |steps|
  {
    if steps != [] {
      AfterAllExtends(After(p, steps[0]), steps[1..], s);
      assert (steps + [s])[1..] == steps[1..] + [s];
    } else {
      assert [s][1..] == [];
    }
  }

  lemma EmptyRun(p: PusherState)
    ensures IsRun(p, []) && AfterAll(p, []) == p && Iterations([]) == 0
  {
  }

  // ---- The worker as the program has it -------------------------------------------

  class Pusher {
    var mailbox: seq<Event>
    var out: seq<Event>
    var stop: bool
    var closed: bool
    const cap: nat
    ghost var st: PusherState

    ghost predicate Valid()
      reads this
    {
      && st.mailbox == mailbox && st.out == out && st.stop == stop && st.closed == closed && st.cap == cap
      && Accounted(st) && Owned(st)
    }

    constructor (ghost owner: Id, cap: nat)
      ensures Valid() && st == New(owner, cap)
    {
      mailbox, out, stop, closed, this.cap := [], [], false, false, cap;
      st := New(owner, cap);
    }

    // enqueue
    method Enqueue(ev: Event)
      requires Valid()
      modifies this
      ensures Valid() && st == Hand(old(st), ev)
    {
      HandKeepsAccount(st, ev);
      if |mailbox| < cap {
        mailbox := mailbox + [ev];
      }
      st := Hand(st, ev);
    }

    // stopPush
    method StopPush()
      requires Valid()
      modifies this
      ensures Valid() && st == Stopped(old(st))
    {
      stop := true;
      st := Stopped(st);
    }

    ghost method Take(s: Step)
      requires Valid() && Enabled(st, s)
      modifies `st
      ensures st == After(old(st), s) && Accounted(st) && Owned(st)
    {
      StepKeepsAccount(st, s);
      StepKeepsOwnership(st, s);
      st := After(st, s);
    }

    // forward: one tiered push. The timer of a blocking push may fire at any moment.
    method Forward(ev: Event) returns (ghost s: Step)
      requires Valid() && st.phase == Holding(ev)
      modifies this
      ensures Valid() && s in {SendOut, DropFull, TimerFires}
      ensures Enabled(old(st), s) && st == After(old(st), s)
      ensures s.SendOut? ==> |old(out)| < 16 && out == old(out) + [ev]
      ensures s.DropFull? ==> |old(out)| >= 16 && !Threaded(ev) && out == old(out)
      ensures s.TimerFires? ==> Threaded(ev) && out == old(out)
      ensures mailbox == old(mailbox) && stop == old(stop)
    {
      var sends := |out| < OUT_BUFFER;
      if ev.Blocking() {
        var timerFires: bool := *;
        sends := sends && !timerFires;
        s := if sends then SendOut else TimerFires;
      } else {
        s := if sends then SendOut else DropFull;
      }
      Take(s);
      if sends {
        out := out + [ev];
      }
    }

    // run, from the moment a stop has been signalled and nothing more is enqueued, with
    // an event in hand if the stop came while forward was at work: every resolution of its
    // selects closes out within |mailbox| + 1 turns.
    method RunStopped(inHand: Option<Event>) returns (turns: nat, ghost steps: seq<Step>)
      requires Valid() && stop && st.phase == if inHand.Some? then Holding(inHand.value) else Idle
      modifies this
      ensures Valid() && closed && st.phase.Exited?
      ensures IsRun(old(st), steps) && st == AfterAll(old(st), steps)
      ensures turns == Iterations(steps) <= |old(mailbox)| + 1
    {
      hide Accounted, IsRun, AfterAll, Iterations, Owned;
      EmptyRun(st);
      steps := [];
      if inHand.Some? {
        ghost var s := Forward(inHand.value);
        AfterAllExtends(old(st), [], s);
        steps := [] + [s];
      }
      turns, steps := TurnUntilStopped(old(st), steps);
    }

    // One turn of the loop of run that takes an event from the mailbox.
    method ForwardNext(ghost start: PusherState, ghost before: seq<Step>) returns (ghost steps: seq<Step>)
      requires Valid() && st.phase.Idle? && mailbox != []
      requires IsRun(start, before) && st == AfterAll(start, before)
      modifies this
      ensures Valid() && st.phase.Idle? && stop == old(stop) && mailbox == old(mailbox)[1..]
      ensures IsRun(start, steps) && st == AfterAll(start, steps) && Iterations(steps) == Iterations(before) + 1
    {
      hide Accounted, IsRun, AfterAll, Iterations, Owned;
      AfterAllExtends(start, before, TakeMail);
      Take(TakeMail);
      steps := before + [TakeMail];
      var ev := mailbox[0];
      mailbox := mailbox[1..];
      ghost var s := Forward(ev);
      AfterAllExtends(start, steps, s);
      steps := steps + [s];
    }

    // The loop of run, which `before` brought to its select.
    method TurnUntilStopped(ghost start: PusherState, ghost before: seq<Step>) returns (turns: nat, ghost steps: seq<Step>)
      requires Valid() && stop && st.phase.Idle?
      requires IsRun(start, before) && st == AfterAll(start, before) && Iterations(before) == 0
      modifies this
      ensures Valid() && closed && st.phase.Exited?
      ensures IsRun(start, steps) && st == AfterAll(start, steps)
      ensures turns == Iterations(steps) <= |old(mailbox)| + 1
    {
      hide Accounted, IsRun, AfterAll, Iterations, Owned;
      turns, steps := 0, before;
      var running := true;
      while running
        invariant Valid()
        invariant IsRun(start, steps) && st == AfterAll(start, steps) && turns == Iterations(steps)
        invariant if running then stop && st.phase.Idle? && turns + |mailbox| <= |old(mailbox)|
                  else closed && st.phase.Exited? && turns <= |old(mailbox)| + 1
        decreases running, |mailbox|, |out|
      {
        if {
          case stop =>
            AfterAllExtends(start, steps, TakeStop);
            Take(TakeStop);
            steps, turns := steps + [TakeStop], turns + 1;
            stop, closed, running := false, true, false;
          case mailbox != [] =>
            steps := ForwardNext(start, steps);
            turns := turns + 1;
          case out != [] =>  // the subscriber reads
            AfterAllExtends(start, steps, Receive);
            Take(Receive);
            steps := steps + [Receive];
            out := out[1..];
        }
      }
    }
  }
}
