// The concurrent shell around the loop-private state: callers post commands to a
// bounded channel, one loop executes them, pushers run beside it, and Close ends it
// all (Broker, run, do and ask in internal/broker/broker.go). Every goroutine's next
// atomic step is one step of the system; a `select` with several ready cases, and the
// scheduler, may pick any of them.
module Shells {
  import opened Types
  import opened Pushers
  import opened BrokerModel
  import opened Invariants
  import opened Independence
  import opened Effects
  import opened Inboxes
  import opened TokenBuckets
  import Ledgers

  const CMD_BUFFER := 64

  // What a caller asks for. Clock readings, fresh ids and iteration orders come from
  // the loop, when it gets there.
  datatype Request =
    | AskRegister(path: string)
    | AskTouch(id: Id)
    | AskUnregister(id: Id)
    | AskListPeers(id: Id)
    | AskLookup(id: Id)
    | AskSend(msg: Message)
    | AskBroadcast(id: Id, content: string)
    | AskPoll(id: Id)
    | AskSubscribe(id: Id)
    | AskCancel(id: Id, pid: nat)
  {
    // Touch and a subscription's cancel only post; everything else waits for its reply.
    predicate Waits() { !AskTouch? && !AskCancel? }

    predicate FitsCmd(cmd: Cmd) {
      match this
      case AskRegister(path) => cmd.Register? && cmd.path == path
      case AskTouch(id) => cmd.Touch? && cmd.id == id
      case AskUnregister(id) => cmd == Unregister(id)
      case AskListPeers(id) => cmd.ListPeers? && cmd.id == id
      case AskLookup(id) => cmd == Lookup(id)
      case AskSend(msg) => cmd.Send? && cmd.msg == msg
      case AskBroadcast(id, content) => cmd.Broadcast? && cmd.id == id && cmd.content == content
      case AskPoll(id) => cmd == Poll(id)
      case AskSubscribe(id) => cmd == Subscribe(id)
      case AskCancel(id, pid) => cmd == Cancel(id, pid)
    }
  }

  // A command belongs to one request only: nothing of what was asked for is lost.
  lemma CommandFitsOne(x: Request, y: Request, cmd: Cmd)
    requires x.FitsCmd(cmd) && y.FitsCmd(cmd)
    ensures x == y
  {
  }

  // How a call came back to its caller.
  datatype Outcome = Answer(reply: Reply) | Posted | Refused

  datatype Call = Call(
    req: Request,
    before: set<nat>,          // the calls that had come back when this one was made
    reply: Option<Reply>,      // what the loop put into the call's reply channel
    outcome: Option<Outcome>)

  datatype Shell = Shell(
    broker: Broker, calls: seq<Call>, queue: seq<nat>, closed: bool, exited: bool,
    // History: the posted calls in channel order, what the loop and the pushers did up
    // to the loop's exit, and which call each of these actions executed.
    posted: seq<nat>, acts: seq<Action>, marks: seq<Option<nat>>)

  function Start(cfg: Settings, now: Time): Shell {
    Shell(Init(cfg, now), [], [], false, false, [], [], [])
  }

  datatype Step =
    | Make(req: Request)                  // a caller enters a public method
    | Post(i: nat)                        // do: the channel takes the command
    | Refuse(i: nat)                      // do: done is closed
    | Execute(cmd: Cmd)                   // run: receive a command and run it
    | Tick(now: Time, order: seq<Id>)     // run: the cleanup tick
    | Work(pid: nat, s: Pushers.Step)     // a pusher or its subscriber
    | Close
    | Exit                                // run: done is closed
    | Return(i: nat)                      // ask: receive the reply

  ghost predicate Can(s: Shell, st: Step) {
    match st
    case Make(_) => true
    case Post(i) => i < |s.calls| && s.calls[i].outcome.None? && i !in s.posted && |s.queue| < CMD_BUFFER
    case Refuse(i) => i < |s.calls| && s.calls[i].outcome.None? && i !in s.posted && s.closed
    case Execute(cmd) =>
      && !s.exited && s.queue != [] && s.queue[0] < |s.calls|
      && s.calls[s.queue[0]].req.FitsCmd(cmd) && Admissible(s.broker, cmd)
    case Tick(now, order) => !s.exited && Admissible(s.broker, Reap(now, order))
    case Work(pid, step) => pid < |s.broker.pool| && Enabled(s.broker.pool[pid], step)
    case Close => true
    case Exit => s.closed && !s.exited
    case Return(i) => i < |s.calls| && s.calls[i].outcome.None? && s.calls[i].reply.Some? && s.calls[i].req.Waits()
  }

  function CameBack(calls: seq<Call>): set<nat> { set i: nat | i < |calls| && calls[i].outcome.Some? }

  // run, on its way out: every pusher of the map is told to stop.
  ghost function StopAll(b: Broker): Broker {
    b.(pool := seq(|b.pool|, i requires 0 <= i < |b.pool| => if Active(b, i) then Stopped(b.pool[i]) else b.pool[i]))
  }

  ghost function Apply(s: Shell, st: Step): Shell
    requires Can(s, st)
  {
    match st
    case Make(req) => s.(calls := s.calls + [Call(req, CameBack(s.calls), None, None)])
    case Post(i) =>
      s.(queue := s.queue + [i], posted := s.posted + [i],
         calls := if s.calls[i].req.Waits() then s.calls else s.calls[i := s.calls[i].(outcome := Some(Posted))])
    case Refuse(i) => s.(calls := s.calls[i := s.calls[i].(outcome := Some(Refused))])
    case Execute(cmd) =>
      var i, r := s.queue[0], Exec(s.broker, cmd);
      s.(broker := r.state, queue := s.queue[1..], calls := s.calls[i := s.calls[i].(reply := Some(r.reply))],
         acts := s.acts + [Do(cmd)], marks := s.marks + [Some(i)])
    case Tick(now, order) =>
      s.(broker := Exec(s.broker, Reap(now, order)).state, acts := s.acts + [Do(Reap(now, order))], marks := s.marks + [None])
    case Work(pid, step) =>
      var b := Next(s.broker, Push(pid, step));
      if s.exited then s.(broker := b) else s.(broker := b, acts := s.acts + [Push(pid, step)], marks := s.marks + [None])
    case Close => s.(closed := true)
    case Exit => s.(exited := true, broker := StopAll(s.broker))
    case Return(i) => s.(calls := s.calls[i := s.calls[i].(outcome := Some(Answer(s.calls[i].reply.value)))])
  }

  ghost predicate IsTrace(s: Shell, steps: seq<Step>)
    decreases |steps|
  {
    steps == [] || (Can(s, steps[0]) && IsTrace(Apply(s, steps[0]), steps[1..]))
  }

  ghost function End(s: Shell, steps: seq<Step>): Shell
    requires IsTrace(s, steps)
    decreases |steps|
  {
    if steps == [] then s else End(Apply(s, steps[0]), steps[1..])
  }

  // ---- Serialisability -----------------------------------------------------------

  // The calls the loop has executed, in its order.
  ghost function Executed(marks: seq<Option<nat>>): seq<nat> {
    if marks == [] then []
    else
      var n := |marks| - 1;
      Executed(marks[..n]) + if marks[n].Some? then [marks[n].value] else []
  }

  // Action k either carried out a call, which got the reply that the sequential broker
  // gives at that point, or was a cleanup tick or the work of a pusher.
  ghost predicate Faithful(b: Broker, calls: seq<Call>, acts: seq<Action>, marks: seq<Option<nat>>, k: nat)
    requires k < |acts| == |marks|
  {
    match marks[k]
    case None => acts[k].Push? || acts[k].cmd.Reap?
    case Some(i) =>
      && i < |calls| && acts[k].Do? && calls[i].req.FitsCmd(acts[k].cmd)
      && calls[i].reply == Some(Exec(Run(b, acts[..k]), acts[k].cmd).reply)
  }

  ghost predicate Fifo(s: Shell) {
    && s.posted == Executed(s.marks) + s.queue && |s.queue| <= CMD_BUFFER
    && (forall k :: 0 <= k < |s.posted| ==> s.posted[k] < |s.calls|)
    && (forall j, k :: 0 <= j < k < |s.posted| ==> s.posted[j] != s.posted[k])
  }

  // A call has come back in one of the ways its kind allows.
  ghost predicate Consistent(s: Shell, i: nat)
    requires i < |s.calls|
  {
    var c := s.calls[i];
    && (c.reply.Some? <==> i in Executed(s.marks))
    && match c.outcome
       case None => i in s.posted ==> c.req.Waits()
       case Some(Answer(r)) => c.req.Waits() && c.reply == Some(r)
       case Some(Posted) => !c.req.Waits() && i in s.posted
       case Some(Refused) => i !in s.posted && s.closed
  }

  // Calls that had come back when another was made precede it in the channel.
  ghost predicate RealTime(s: Shell) {
    && (forall i: nat, j: nat {:trigger j in s.calls[i].before} :: i < |s.calls| && j in s.calls[i].before ==> j < i && s.calls[j].outcome.Some?)
    && (forall j, k :: 0 <= j < k < |s.posted| && s.posted[j] < |s.calls| ==> s.posted[k] !in s.calls[s.posted[j]].before)
  }

  // What the loop did is a run of the sequential broker, and the state is where it led.
  ghost predicate Ran(s: Shell, b: Broker) {
    && |s.acts| == |s.marks| && BrokerModel.IsRun(b, s.acts)
    && s.broker == Run(b, s.acts).(pool := s.broker.pool)
    && (!s.exited ==> s.broker == Run(b, s.acts))
    && (s.exited ==> s.closed)
    && forall k :: 0 <= k < |s.acts| ==> Faithful(b, s.calls, s.acts, s.marks, k)
  }

  ghost predicate Serial(s: Shell, b: Broker) {
    && Fifo(s) && RealTime(s) && Ran(s, b)
    && forall i :: 0 <= i < |s.calls| ==> Consistent(s, i)
  }

  lemma ExecutedSnoc(marks: seq<Option<nat>>, m: Option<nat>)
    ensures Executed(marks + [m]) == Executed(marks) + if m.Some? then [m.value] else []
  {
    assert (marks + [m])[..|marks|] == marks;
  }

  lemma {:induction false} ExecutedMembers(marks: seq<Option<nat>>)
    ensures forall k :: 0 <= k < |marks| && marks[k].Some? ==> marks[k].value in Executed(marks)
    ensures forall i :: i in Executed(marks) ==> Some(i) in marks
  {
    if marks != [] {
      var n := |marks| - 1;
      ExecutedMembers(marks[..n]);
      assert marks == marks[..n] + [marks[n]];
    }
  }

  // A longer log, with everything that earlier entries rest on unchanged.
  lemma FaithfulStays(b: Broker, s: Shell, t: Shell, k: nat)
    requires k < |s.acts| == |s.marks| <= |t.acts| == |t.marks| && Faithful(b, s.calls, s.acts, s.marks, k)
    requires t.acts[..|s.acts|] == s.acts && t.marks[..|s.marks|] == s.marks
    requires |s.calls| <= |t.calls|
    requires forall i :: 0 <= i < |s.calls| && s.calls[i].reply.Some? ==> t.calls[i].req == s.calls[i].req && t.calls[i].reply == s.calls[i].reply
    ensures Faithful(b, t.calls, t.acts, t.marks, k)
  {
    hide Exec, Run;
    assert t.acts[k] == t.acts[..|s.acts|][k] && t.marks[k] == t.marks[..|s.marks|][k];
    assert t.acts[..k] == t.acts[..|s.acts|][..k] == s.acts[..k];
  }

  lemma StepKeepsFifo(s: Shell, st: Step)
    requires Fifo(s) && Can(s, st)
    ensures Fifo(Apply(s, st))
  {
    hide Exec, Next, Enabled, Admissible, StopAll, CameBack, Executed, Fifo;
    var t := Apply(s, st);
    match st
    case Post(i) => FifoGrows(s, t, i);
    case Execute(_) =>
      ExecutedSnoc(s.marks, Some(s.queue[0]));
      assert Executed(s.marks) + s.queue == Executed(s.marks) + [s.queue[0]] + s.queue[1..];
      FifoRests(s, t);
    case Tick(_, _) => ExecutedSnoc(s.marks, None); FifoRests(s, t);
    case Work(_, _) => ExecutedSnoc(s.marks, None); FifoRests(s, t);
    case _ => FifoRests(s, t);
  }

  lemma FifoRests(s: Shell, t: Shell)
    requires Fifo(s) && t.posted == s.posted && |s.calls| <= |t.calls|
    requires Executed(t.marks) + t.queue == Executed(s.marks) + s.queue && |t.queue| <= |s.queue|
    ensures Fifo(t)
  {
    hide Executed;
  }

  lemma FifoGrows(s: Shell, t: Shell, i: nat)
    requires Fifo(s) && i < |s.calls| == |t.calls| && i !in s.posted && |s.queue| < CMD_BUFFER
    requires t.posted == s.posted + [i] && t.queue == s.queue + [i] && t.marks == s.marks
    ensures Fifo(t)
  {
    hide Executed;
    assert Executed(s.marks) + s.queue + [i] == Executed(s.marks) + (s.queue + [i]);
  }

  lemma StepKeepsRealTime(s: Shell, st: Step)
    requires Fifo(s) && RealTime(s) && Can(s, st)
    ensures RealTime(Apply(s, st))
  {
    hide Exec, Next, Enabled, Admissible, StopAll, Executed;
    match st
    case Make(req) => CallsAdded(s, Apply(s, st));
    case Post(i) =>
      var t := s.(calls := Apply(s, st).calls);
      CallsProgress(s, t);
      assert forall j :: 0 <= j < |s.posted| ==> i !in t.calls[s.posted[j]].before;
    case Execute(_) => CallsProgress(s, Apply(s, st));
    case Refuse(_) => CallsProgress(s, Apply(s, st));
    case Return(_) => CallsProgress(s, Apply(s, st));
    case _ =>
  }

  lemma CallsProgress(s: Shell, t: Shell)
    requires Fifo(s) && RealTime(s) && t.posted == s.posted && |t.calls| == |s.calls|
    requires forall i :: 0 <= i < |s.calls| ==> t.calls[i].before == s.calls[i].before && (s.calls[i].outcome.Some? ==> t.calls[i].outcome.Some?)
    ensures RealTime(t)
  {
    hide Executed;
  }

  lemma CallsAdded(s: Shell, t: Shell)
    requires Fifo(s) && RealTime(s) && t.posted == s.posted && |t.calls| == |s.calls| + 1
    requires t.calls[..|s.calls|] == s.calls && t.calls[|s.calls|].before == CameBack(s.calls)
    ensures RealTime(t)
  {
    hide Executed;
    assert forall i :: 0 <= i < |s.calls| ==> t.calls[i] == t.calls[..|s.calls|][i] == s.calls[i];
  }

  // Which calls one step adds to the executed and to the posted ones.
  lemma StepAdds(s: Shell, st: Step)
    requires Can(s, st)
    ensures var t := Apply(s, st);
            && (forall k :: k in Executed(t.marks) <==> k in Executed(s.marks) || (st.Execute? && k == s.queue[0]))
            && (forall k :: k in t.posted <==> k in s.posted || (st.Post? && k == st.i))
  {
    hide Exec, Next, Enabled, Admissible, StopAll, CameBack, Executed;
    if st.Execute? { ExecutedSnoc(s.marks, Some(s.queue[0])); }
    ExecutedSnoc(s.marks, None);
  }

  lemma StepKeepsConsistency(s: Shell, st: Step)
    requires Fifo(s) && Can(s, st) && forall i :: 0 <= i < |s.calls| ==> Consistent(s, i)
    ensures var t := Apply(s, st); forall i :: 0 <= i < |t.calls| ==> Consistent(t, i)
  {
    var t := Apply(s, st);
    ExecutedWasPosted(s);
    if st.Execute? { NotYetExecuted(s); }
    hide Can, Apply, Fifo;
    forall k: nat | k < |t.calls| ensures Consistent(t, k) {
      if k < |s.calls| { assert Consistent(s, k); }
      hide Consistent;
      CallStaysConsistent(s, st, k);
    }
  }

  lemma ExecutedWasPosted(s: Shell)
    requires Fifo(s)
    ensures forall k :: k in Executed(s.marks) ==> k in s.posted
    ensures forall k :: k in s.posted ==> k < |s.calls|
  {
    hide Executed;
  }

  lemma CallStaysConsistent(s: Shell, st: Step, k: nat)
    requires Can(s, st) && k < |Apply(s, st).calls| && (k < |s.calls| ==> Consistent(s, k))
    requires forall k :: k in Executed(s.marks) ==> k in s.posted
    requires forall k :: k in s.posted ==> k < |s.calls|
    requires st.Execute? ==> s.calls[s.queue[0]].reply.None?
    ensures Consistent(Apply(s, st), k)
  {
    hide Exec, Next, Enabled, Admissible, StopAll, CameBack, Executed;
    StepAdds(s, st);
  }

  // Calls keep what was asked and, once there is one, the reply.
  ghost predicate KeepsReplies(s: Shell, t: Shell) {
    && |s.calls| <= |t.calls|
    && forall i :: 0 <= i < |s.calls| ==>
         t.calls[i].req == s.calls[i].req && (s.calls[i].reply.Some? ==> t.calls[i].reply == s.calls[i].reply)
  }

  // The loop or a pusher does one more thing.
  lemma RanGrows(s: Shell, t: Shell, b: Broker, a: Action, m: Option<nat>)
    requires Ran(s, b) && KeepsReplies(s, t)
    requires !s.exited && !t.exited && t.acts == s.acts + [a] && t.marks == s.marks + [m]
    requires Possible(s.broker, a) && t.broker == Next(s.broker, a)
    requires match m
             case None => a.Push? || a.cmd.Reap?
             case Some(i) => && i < |t.calls| && a.Do? && t.calls[i].req.FitsCmd(a.cmd)
                             && t.calls[i].reply == Some(Exec(s.broker, a.cmd).reply)
    ensures Ran(t, b)
  {
    hide Exec, Next, Possible, Run, BrokerModel.IsRun;
    RunSnoc(b, s.acts, a);
    assert t.acts[..|s.acts|] == s.acts && t.marks[..|s.marks|] == s.marks;
    assert Faithful(b, t.calls, t.acts, t.marks, |s.acts|);
    hide Faithful;
    forall k: nat | k < |s.acts| ensures Faithful(b, t.calls, t.acts, t.marks, k) {
      FaithfulStays(b, s, t, k);
    }
  }

  lemma RanRests(s: Shell, t: Shell, b: Broker)
    requires Ran(s, b) && KeepsReplies(s, t) && t.acts == s.acts && t.marks == s.marks
    requires t.broker == s.broker.(pool := t.broker.pool) && (t.exited ==> t.closed)
    requires !t.exited ==> t.broker == s.broker && !s.exited
    ensures Ran(t, b)
  {
    hide Run, BrokerModel.IsRun, Faithful;
    assert t.acts[..|s.acts|] == s.acts && t.marks[..|s.marks|] == s.marks;
    forall k: nat | k < |s.acts| ensures Faithful(b, t.calls, t.acts, t.marks, k) {
      FaithfulStays(b, s, t, k);
    }
  }

  lemma StepKeepsRan(s: Shell, st: Step, b: Broker)
    requires Fifo(s) && Ran(s, b) && Can(s, st)
    requires forall i :: 0 <= i < |s.calls| ==> Consistent(s, i)
    ensures Ran(Apply(s, st), b)
  {
    hide Exec, Enabled, Admissible, Executed, Ran, RealTime;
    var t := Apply(s, st);
    RanExits(s, b);
    match st
    case Execute(cmd) =>
      NotYetExecuted(s);
      RanGrows(s, t, b, Do(cmd), Some(s.queue[0]));
    case Tick(now, order) => RanGrows(s, t, b, Do(Reap(now, order)), None);
    case Work(pid, step) =>
      if s.exited { RanRests(s, t, b); } else { RanGrows(s, t, b, Push(pid, step), None); }
    case _ => RanRests(s, t, b);
  }

  lemma RanExits(s: Shell, b: Broker)
    requires Ran(s, b)
    ensures s.exited ==> s.closed
  {
  }

  // The command at the head of the channel has no reply yet.
  lemma NotYetExecuted(s: Shell)
    requires Fifo(s) && s.queue != [] && forall i :: 0 <= i < |s.calls| ==> Consistent(s, i)
    ensures s.queue[0] < |s.calls| && s.calls[s.queue[0]].reply.None?
  {
    var e, i := Executed(s.marks), s.queue[0];
    assert s.posted[|e|] == i;
    assert i !in e by {
      forall k | 0 <= k < |e| ensures e[k] != i { assert s.posted[k] == e[k]; }
    }
    assert Consistent(s, i);
  }

  lemma StepKeepsSerial(s: Shell, st: Step, b: Broker)
    requires Serial(s, b) && Can(s, st)
    ensures Serial(Apply(s, st), b)
  {
    hide Fifo, RealTime, Ran, Consistent, Can, Apply;
    StepKeepsFifo(s, st);
    StepKeepsRealTime(s, st);
    StepKeepsRan(s, st, b);
    StepKeepsConsistency(s, st);
  }

  lemma {:induction false} TraceIsSerial(s: Shell, steps: seq<Step>, b: Broker)
    requires Serial(s, b) && IsTrace(s, steps)
    ensures Serial(End(s, steps), b)
    decreases |steps|
  {
    hide Serial, Can, Apply;
    if steps != [] {
      StepKeepsSerial(s, steps[0], b);
      TraceIsSerial(Apply(s, steps[0]), steps[1..], b);
    }
  }

  lemma StartIsSerial(cfg: Settings, now: Time)
    ensures Serial(Start(cfg, now), Init(cfg, now))
  {
  }

  // ---- The sequential broker ---------------------------------------------------------

  ghost function Sequential(b: Broker, cmds: seq<Cmd>): Broker {
    if cmds == [] then b else Exec(Sequential(b, cmds[..|cmds| - 1]), cmds[|cmds| - 1]).state
  }

  // Alike in everything but what the pushers hold.
  ghost predicate Alike(b: Broker, c: Broker) { c == b.(pool := c.pool) && |b.pool| == |c.pool| }

  lemma PiecesAlike(b: Broker, c: Broker, id: Id, ev: Event)
    requires Alike(b, c)
    ensures Alike(Deliver(b, id, ev), Deliver(c, id, ev))
    ensures Alike(NotifyPeers(b, id, ev), NotifyPeers(c, id, ev))
    ensures Alike(DropPusher(b, id), DropPusher(c, id))
  {
  }

  lemma RemoveAlike(b: Broker, c: Broker, id: Id)
    requires Alike(b, c)
    ensures Alike(RemoveSession(b, id), RemoveSession(c, id))
  {
    hide DropPusher, NotifyPeers;
    var x, y := b.(sessions := b.sessions - {id}), c.(sessions := c.sessions - {id});
    PiecesAlike(x, y, id, PeerLeft(id));
    PiecesAlike(DropPusher(x, id), DropPusher(y, id), id, PeerLeft(id));
  }

  lemma {:induction false} ReapAlike(b: Broker, c: Broker, now: Time, order: seq<Id>)
    requires Alike(b, c)
    ensures Alike(ReapEach(b, now, order), ReapEach(c, now, order))
  {
    hide RemoveSession;
    if order != [] {
      var n := |order| - 1;
      ReapAlike(b, c, now, order[..n]);
      RemoveAlike(ReapEach(b, now, order[..n]), ReapEach(c, now, order[..n]), order[n]);
    }
  }

  lemma FanToAlike(b: Broker, c: Broker, from: Id, content: string, to: Id, st: Stamp)
    requires Alike(b, c)
    ensures Alike(FanTo(b, from, content, to, st), FanTo(c, from, content, to, st))
  {
    hide Deliver;
    if to != from && to in b.sessions {
      var m := Copy(b.cfg, from, content, to, st);
      PiecesAlike(WithInbox(b, to, m), WithInbox(c, to, m), to, MessageEvent(m));
    }
  }

  lemma {:induction false} FanoutAlike(b: Broker, c: Broker, from: Id, content: string, order: seq<Id>, stamps: map<Id, Stamp>)
    requires Alike(b, c)
    ensures Alike(Fanout(b, from, content, order, stamps), Fanout(c, from, content, order, stamps))
  {
    hide FanTo;
    if order != [] {
      var n := |order| - 1;
      FanoutAlike(b, c, from, content, order[..n], stamps);
      FanToAlike(Fanout(b, from, content, order[..n], stamps), Fanout(c, from, content, order[..n], stamps),
                 from, content, order[n], StampFor(stamps, order[n]));
    }
  }

  lemma SendAlike(b: Broker, c: Broker, msg: Message, id: Id, at: Time, tripAt: Time)
    requires Alike(b, c)
    ensures var x, y := DoSend(b, msg, id, at, tripAt), DoSend(c, msg, id, at, tripAt); Alike(x.state, y.state) && x.reply == y.reply
  {
    hide Deliver, Enqueued, Breaker, Suppressed;
    var m := Stamped(b.cfg, msg, id, at);
    PiecesAlike(b.(clock := at), c.(clock := at), m.to, MessageEvent(m));
    if m.to in b.sessions {
      var h := Breaker(b.cfg, b.histories, m, tripAt);
      PiecesAlike(WithInbox(b, m.to, m).(histories := h, clock := tripAt), WithInbox(c, m.to, m).(histories := h, clock := tripAt),
                  m.to, MessageEvent(m));
    }
  }

  lemma BroadcastAlike(b: Broker, c: Broker, now: Time, from: Id, content: string, order: seq<Id>, stamps: map<Id, Stamp>, end: Time)
    requires Alike(b, c)
    ensures var x, y := DoBroadcast(b, now, from, content, order, stamps, end), DoBroadcast(c, now, from, content, order, stamps, end);
            Alike(x.state, y.state) && x.reply == y.reply
  {
    hide Fanout, AfterTake, Grants;
    FanoutAlike(Charged(b, from, now), Charged(c, from, now), from, content, order, stamps);
  }

  // A command does to two such brokers the same, and replies the same.
  lemma CommandAlike(b: Broker, c: Broker, cmd: Cmd)
    requires Alike(b, c)
    ensures Alike(Exec(b, cmd).state, Exec(c, cmd).state) && Exec(b, cmd).reply == Exec(c, cmd).reply
  {
    hide Deliver, NotifyPeers, DropPusher, RemoveSession, ReapEach, DoSend, DoBroadcast, Expire;
    match cmd
    case Register(now, id, path) =>
      var s := Session(id, path, now, now);
      var entry := Entry(s, [], Full(b.cfg.broadcastBurst, b.cfg.broadcastRefill, now));
      PiecesAlike(b.(sessions := b.sessions[id := entry], clock := now), c.(sessions := b.sessions[id := entry], clock := now), id, PeerJoined(s));
    case Unregister(id) => RemoveAlike(b, c, id);
    case Send(msg, id, at, tripAt) => SendAlike(b, c, msg, id, at, tripAt);
    case Broadcast(now, from, content, order, stamps, end) =>
      BroadcastAlike(b, c, now, from, content, order, stamps, end);
    case Subscribe(id) => PiecesAlike(b, c, id, PeerLeft(id));
    case Cancel(id, _) => PiecesAlike(b, c, id, PeerLeft(id));
    case Reap(now, order) => ReapAlike(b.(clock := now), c.(clock := now), now, order);
    case _ =>
  }

  lemma {:induction false} RunIsSequential(b: Broker, acts: seq<Action>)
    ensures Alike(Run(b, acts), Sequential(b, Commands(acts)))
  {
    hide Exec;
    if acts != [] {
      var n := |acts| - 1;
      var cmds := Commands(acts[..n]);
      RunIsSequential(b, acts[..n]);
      if acts[n].Do? {
        CommandAlike(Run(b, acts[..n]), Sequential(b, cmds), acts[n].cmd);
        assert (cmds + [acts[n].cmd])[..|cmds|] == cmds;
      } else {
        assert cmds + [] == cmds;
      }
    }
  }

  // Whatever the loop executed for a call is what that call asked for: also for a touch or
  // a cancel, and for a call that has not come back yet.
  ghost predicate DidAsAsked(s: Shell) {
    && |s.acts| == |s.marks|
    && forall k :: 0 <= k < |s.acts| ==>
         match s.marks[k]
         case None => s.acts[k].Push? || s.acts[k].cmd.Reap?
         case Some(i) => i < |s.calls| && s.acts[k].Do? && s.calls[i].req.FitsCmd(s.acts[k].cmd)
  }

  lemma FaithfulDidAsAsked(s: Shell, b: Broker)
    requires Ran(s, b)
    ensures DidAsAsked(s)
  {
    hide Run, Exec, BrokerModel.IsRun;
    forall k: nat | k < |s.acts|
      ensures match s.marks[k]
              case None => s.acts[k].Push? || s.acts[k].cmd.Reap?
              case Some(i) => i < |s.calls| && s.acts[k].Do? && s.calls[i].req.FitsCmd(s.acts[k].cmd)
    {
      assert Faithful(b, s.calls, s.acts, s.marks, k);
    }
  }

  // Every answered call got exactly the reply that the sequential broker gives when the
  // commands before it, calls in channel order and cleanup ticks, are run one by one.
  lemma AnsweredAsSequential(cfg: Settings, now: Time, steps: seq<Step>, i: nat)
    requires IsTrace(Start(cfg, now), steps)
    requires var s := End(Start(cfg, now), steps); i < |s.calls| && s.calls[i].outcome.Some? && s.calls[i].outcome.value.Answer?
    ensures DidAsAsked(End(Start(cfg, now), steps))
    ensures var s := End(Start(cfg, now), steps);
            exists k :: && 0 <= k < |s.acts| == |s.marks| && s.marks[k] == Some(i) && s.acts[k].Do?
                        && s.calls[i].req.FitsCmd(s.acts[k].cmd)
                        && s.calls[i].outcome == Some(Answer(Exec(Sequential(Init(cfg, now), Commands(s.acts[..k])), s.acts[k].cmd).reply))
  {
    hide End, IsTrace, Exec, Run;
    var s, b := End(Start(cfg, now), steps), Init(cfg, now);
    StartIsSerial(cfg, now);
    TraceIsSerial(Start(cfg, now), steps, b);
    FaithfulDidAsAsked(s, b);
    assert Consistent(s, i);
    ExecutedMembers(s.marks);
    hide DidAsAsked;
    var k :| 0 <= k < |s.marks| && s.marks[k] == Some(i);
    assert Faithful(b, s.calls, s.acts, s.marks, k);
    RunIsSequential(b, s.acts[..k]);
    CommandAlike(Run(b, s.acts[..k]), Sequential(b, Commands(s.acts[..k])), s.acts[k].cmd);
  }

  // The loop executes calls in the order in which the channel took them, each at most
  // once, and that order respects real time: a call that had come back when another was
  // made comes first. A touch comes back as soon as it is posted.
  lemma ExecutionRespectsRealTime(cfg: Settings, now: Time, steps: seq<Step>)
    requires IsTrace(Start(cfg, now), steps)
    ensures var s := End(Start(cfg, now), steps); var e := Executed(s.marks);
            && e <= s.posted && BrokerModel.IsRun(Init(cfg, now), s.acts)
            && (forall j, k :: 0 <= j < k < |e| ==> e[j] != e[k])
            && (forall j, k :: 0 <= j < k < |e| ==> e[j] < |s.calls| && e[k] !in s.calls[e[j]].before)
            && DidAsAsked(s)
  {
    hide End, IsTrace, BrokerModel.IsRun, Run, Executed, Exec;
    StartIsSerial(cfg, now);
    TraceIsSerial(Start(cfg, now), steps, Init(cfg, now));
    var s := End(Start(cfg, now), steps);
    var e := Executed(s.marks);
    forall j | 0 <= j < |e| ensures e[j] == s.posted[j] {}
    FaithfulDidAsAsked(s, Init(cfg, now));
  }

  // A call that was refused as closed was never handed to the loop.
  lemma RefusedHadNoEffect(cfg: Settings, now: Time, steps: seq<Step>, i: nat)
    requires IsTrace(Start(cfg, now), steps)
    requires var s := End(Start(cfg, now), steps); i < |s.calls| && s.calls[i].outcome == Some(Refused)
    ensures var s := End(Start(cfg, now), steps);
            s.closed && i !in s.posted && s.calls[i].reply.None? && Some(i) !in s.marks
  {
    hide End, IsTrace, BrokerModel.IsRun, Run, Executed;
    StartIsSerial(cfg, now);
    TraceIsSerial(Start(cfg, now), steps, Init(cfg, now));
    var s := End(Start(cfg, now), steps);
    ExecutedMembers(s.marks);
    assert Consistent(s, i);
    assert forall k :: k in Executed(s.marks) ==> k in s.posted;
  }

  // ---- Which calls come back ---------------------------------------------------------

  // Some continuation lets call i come back.
  ghost predicate CanComeBack(s: Shell, i: nat) {
    exists steps :: IsTrace(s, steps) && i < |End(s, steps).calls| && End(s, steps).calls[i].outcome.Some?
  }

  lemma FreshId(keys: set<Id>) returns (id: Id)
    ensures id !in keys && id != ""
  {
    var n := LongerThanAll(keys);
    id := seq(n + 1, _ => 'x');
  }

  lemma LongerThanAll(keys: set<Id>) returns (n: nat)
    ensures forall k :: k in keys ==> |k| <= n
  {
    if keys == {} {
      n := 0;
    } else {
      var k :| k in keys;
      n := LongerThanAll(keys - {k});
      n := if |k| > n then |k| else n;
    }
  }

  lemma OrderOf(keys: set<Id>) returns (order: seq<Id>)
    ensures IsOrder(order, keys)
  {
    if keys == {} {
      order := [];
    } else {
      var k :| k in keys;
      order := OrderOf(keys - {k});
      order := order + [k];
    }
  }

  // The loop can always run the command at the head of the channel.
  lemma SomeCommandFits(b: Broker, req: Request) returns (cmd: Cmd)
    ensures req.FitsCmd(cmd) && Admissible(b, cmd)
  {
    var now := b.clock;
    match req
    case AskRegister(path) => var id := FreshId(b.sessions.Keys); cmd := Register(now, id, path);
    case AskTouch(id) => cmd := Touch(now, id);
    case AskUnregister(id) => cmd := Unregister(id);
    case AskListPeers(id) => cmd := ListPeers(now, id);
    case AskLookup(id) => cmd := Lookup(id);
    case AskSend(msg) => cmd := Send(msg, "x", now, now);
    case AskBroadcast(id, content) =>
      var order := OrderOf(b.sessions.Keys + {id});
      cmd := Broadcast(now, id, content, order, map k | k in order :: Stamp("x", now), now);
    case AskPoll(id) => cmd := Poll(id);
    case AskSubscribe(id) => cmd := Subscribe(id);
    case AskCancel(id, pid) => cmd := Cancel(id, pid);
  }

  lemma OneMore(s: Shell, st: Step, rest: seq<Step>)
    requires Can(s, st) && IsTrace(Apply(s, st), rest)
    ensures IsTrace(s, [st] + rest) && End(s, [st] + rest) == End(Apply(s, st), rest)
  {
    hide Can, Apply;
    assert ([st] + rest)[1..] == rest;
  }

  lemma OneStepBack(s: Shell, st: Step, i: nat)
    requires Can(s, st) && CanComeBack(Apply(s, st), i)
    ensures CanComeBack(s, i)
  {
    hide Can, Apply;
    var t := Apply(s, st);
    var rest :| IsTrace(t, rest) && i < |End(t, rest).calls| && End(t, rest).calls[i].outcome.Some?;
    OneMore(s, st, rest);
    hide End, IsTrace;
    assert IsTrace(s, [st] + rest);
  }

  lemma AlreadyBack(s: Shell, i: nat)
    requires i < |s.calls| && s.calls[i].outcome.Some?
    ensures CanComeBack(s, i)
  {
    hide Can, Apply;
    assert IsTrace(s, []) && End(s, []) == s;
  }

  lemma {:induction false} ComesBackFromQueue(s: Shell, b: Broker, i: nat)
    requires Serial(s, b) && !s.exited && i in s.queue && i < |s.calls| && s.calls[i].outcome.None?
    ensures CanComeBack(s, i)
    decreases |s.queue|
  {
    hide Exec, Admissible, CanComeBack, Ran, RealTime, Executed;
    NotYetExecuted(s);
    var cmd := SomeCommandFits(s.broker, s.calls[s.queue[0]].req);
    var t := Apply(s, Execute(cmd));
    StepKeepsSerial(s, Execute(cmd), b);
    if s.queue[0] == i {
      assert Consistent(s, i) && i in s.posted;
      assert t.calls[i].req == s.calls[i].req;
      AlreadyBack(Apply(t, Return(i)), i);
      OneStepBack(t, Return(i), i);
    } else {
      assert i in s.queue[1..];
      ComesBackFromQueue(t, b, i);
    }
    OneStepBack(s, Execute(cmd), i);
  }

  // The loop is gone and the command is still in the channel.
  ghost predicate Stranded(s: Shell, i: nat) { s.exited && i in s.queue }

  lemma StrandedStays(s: Shell, st: Step, b: Broker, i: nat)
    requires Serial(s, b) && Can(s, st) && Stranded(s, i) && i < |s.calls| && s.calls[i].outcome.None?
    ensures var t := Apply(s, st); Stranded(t, i) && i < |t.calls| && t.calls[i].outcome.None?
  {
    hide Exec, Admissible, Ran, RealTime, Executed, StopAll, Next, Enabled, CameBack;
    assert i in s.posted;
    QueuedHasNoReply(s, i);
  }

  lemma QueuedHasNoReply(s: Shell, i: nat)
    requires Fifo(s) && i in s.queue && forall i :: 0 <= i < |s.calls| ==> Consistent(s, i)
    ensures i < |s.calls| && s.calls[i].reply.None?
  {
    hide Executed;
    var e := Executed(s.marks);
    var k :| 0 <= k < |s.queue| && s.queue[k] == i;
    assert s.posted[|e| + k] == i;
    forall j | 0 <= j < |e| ensures e[j] != i { assert s.posted[j] == e[j]; }
    assert Consistent(s, i);
  }

  lemma {:induction false} StrandedForever(s: Shell, steps: seq<Step>, b: Broker, i: nat)
    requires Serial(s, b) && IsTrace(s, steps) && Stranded(s, i) && i < |s.calls| && s.calls[i].outcome.None?
    ensures i < |End(s, steps).calls| && End(s, steps).calls[i].outcome.None?
    decreases |steps|
  {
    hide Can, Apply, Serial, Stranded;
    if steps != [] {
      StrandedStays(s, steps[0], b, i);
      StepKeepsSerial(s, steps[0], b);
      StrandedForever(Apply(s, steps[0]), steps[1..], b, i);
    }
  }

  // A pending call may still come back exactly when the loop has not left it in the
  // channel.
  lemma ComesBackUnlessStranded(cfg: Settings, now: Time, steps: seq<Step>, i: nat)
    requires IsTrace(Start(cfg, now), steps)
    requires var s := End(Start(cfg, now), steps); i < |s.calls| && s.calls[i].outcome.None?
    ensures var s := End(Start(cfg, now), steps); CanComeBack(s, i) <==> !Stranded(s, i)
  {
    hide End, IsTrace, Serial, Stranded, CanComeBack, Executed;
    var s, b := End(Start(cfg, now), steps), Init(cfg, now);
    StartIsSerial(cfg, now);
    TraceIsSerial(Start(cfg, now), steps, b);
    PendingCall(s, b, i);
    if Stranded(s, i) {
      StrandedCannot(s, b, i);
    } else if i !in s.posted {
      ComesBackRefused(s, i);
    } else if i in s.queue {
      assert !s.exited by { NotStranded(s, i); }
      ComesBackFromQueue(s, b, i);
    } else {
      ComesBackAnswered(s, i);
    }
  }

  // Where a call is that has not come back: not posted, in the channel, or executed.
  lemma PendingCall(s: Shell, b: Broker, i: nat)
    requires Serial(s, b) && i < |s.calls| && s.calls[i].outcome.None?
    ensures i in s.posted && i !in s.queue ==> Can(s, Return(i))
  {
    hide Ran, RealTime, Executed;
    assert Consistent(s, i);
    if i in s.posted && i !in s.queue { assert i in Executed(s.marks) + s.queue; }
  }

  lemma NotStranded(s: Shell, i: nat)
    requires !Stranded(s, i) && i in s.queue
    ensures !s.exited
  {
  }

  // The reply of an executed call waits for its caller.
  lemma ComesBackAnswered(s: Shell, i: nat)
    requires Can(s, Return(i))
    ensures CanComeBack(s, i)
  {
    hide CanComeBack;
    AlreadyBack(Apply(s, Return(i)), i);
    OneStepBack(s, Return(i), i);
  }

  // A call not yet posted can be refused once the broker closes.
  lemma ComesBackRefused(s: Shell, i: nat)
    requires i < |s.calls| && s.calls[i].outcome.None? && i !in s.posted
    ensures CanComeBack(s, i)
  {
    hide CanComeBack, StopAll;
    var t := Apply(s, Close);
    AlreadyBack(Apply(t, Refuse(i)), i);
    OneStepBack(t, Refuse(i), i);
    OneStepBack(s, Close, i);
  }

  lemma StrandedCannot(s: Shell, b: Broker, i: nat)
    requires Serial(s, b) && Stranded(s, i) && i < |s.calls| && s.calls[i].outcome.None?
    ensures !CanComeBack(s, i)
  {
    hide Serial, Stranded;
    forall steps | IsTrace(s, steps) ensures i < |End(s, steps).calls| && End(s, steps).calls[i].outcome.None? {
      StrandedForever(s, steps, b, i);
    }
  }

  // Some continuation leaves the command of call i in the channel for good.
  ghost predicate CanStrand(s: Shell, i: nat) {
    exists steps :: IsTrace(s, steps) && Stranded(End(s, steps), i)
  }

  // A caller that has not got its command into the channel yet, before or after Close, is
  // safe from that exactly when the loop has exited and left the channel full.
  lemma StrandingNeedsRoom(cfg: Settings, now: Time, steps: seq<Step>, i: nat)
    requires IsTrace(Start(cfg, now), steps)
    requires var s := End(Start(cfg, now), steps); i < |s.calls| && s.calls[i].outcome.None? && i !in s.posted
    ensures var s := End(Start(cfg, now), steps); !CanStrand(s, i) <==> s.exited && |s.queue| == 64
  {
    hide End, IsTrace, Serial, CanStrand;
    var s, b := End(Start(cfg, now), steps), Init(cfg, now);
    StartIsSerial(cfg, now);
    TraceIsSerial(Start(cfg, now), steps, b);
    if s.exited && |s.queue| == CMD_BUFFER {
      QueuedWasPosted(s, b, i);
      FullIsSafe(s, i);
    } else {
      RoomCanStrand(s, b, i);
    }
  }

  lemma QueuedWasPosted(s: Shell, b: Broker, i: nat)
    requires Serial(s, b)
    ensures i in s.queue ==> i in s.posted
  {
    hide Ran, RealTime, Consistent, Executed;
  }

  // Nobody takes commands out of a channel that the loop has left.
  lemma {:induction false} FullStaysFull(s: Shell, steps: seq<Step>, i: nat)
    requires IsTrace(s, steps) && s.exited && |s.queue| == CMD_BUFFER && i !in s.queue
    ensures i !in End(s, steps).queue
    decreases |steps|
  {
    hide Exec, Next, Admissible, Enabled, StopAll, CameBack;
    if steps != [] { FullStaysFull(Apply(s, steps[0]), steps[1..], i); }
  }

  lemma FullIsSafe(s: Shell, i: nat)
    requires s.exited && |s.queue| == CMD_BUFFER && i !in s.queue
    ensures !CanStrand(s, i)
  {
    hide End, IsTrace;
    forall steps | IsTrace(s, steps) ensures i !in End(s, steps).queue { FullStaysFull(s, steps, i); }
  }

  lemma OneStepStrands(s: Shell, st: Step, i: nat)
    requires Can(s, st) && CanStrand(Apply(s, st), i)
    ensures CanStrand(s, i)
  {
    hide Can, Apply, Stranded;
    var t := Apply(s, st);
    var rest :| IsTrace(t, rest) && Stranded(End(t, rest), i);
    OneMore(s, st, rest);
    hide End, IsTrace;
    assert IsTrace(s, [st] + rest);
  }

  lemma StrandedNow(s: Shell, i: nat)
    requires Stranded(s, i)
    ensures CanStrand(s, i)
  {
    hide Can, Apply, Stranded;
    assert IsTrace(s, []) && End(s, []) == s;
  }

  // With a place in the channel: post, close, and let the loop see that first.
  lemma PostedCanStrand(s: Shell, i: nat)
    requires i < |s.calls| && s.calls[i].outcome.None? && i !in s.posted && |s.queue| < CMD_BUFFER
    ensures CanStrand(s, i)
  {
    hide CanStrand, StopAll;
    var t := Apply(s, Post(i));
    if s.exited {
      StrandedNow(t, i);
    } else {
      var u := Apply(t, Close);
      StrandedNow(Apply(u, Exit), i);
      OneStepStrands(u, Exit, i);
      OneStepStrands(t, Close, i);
    }
    OneStepStrands(s, Post(i), i);
  }

  lemma RoomCanStrand(s: Shell, b: Broker, i: nat)
    requires Serial(s, b) && i < |s.calls| && s.calls[i].outcome.None? && i !in s.posted
    requires !(s.exited && |s.queue| == CMD_BUFFER)
    ensures CanStrand(s, i)
  {
    hide Exec, Admissible, CanStrand, Ran, RealTime, Executed;
    if |s.queue| < CMD_BUFFER {
      PostedCanStrand(s, i);
    } else {
      NotYetExecuted(s);
      var cmd := SomeCommandFits(s.broker, s.calls[s.queue[0]].req);
      var t := Apply(s, Execute(cmd));
      assert t.calls[i].outcome.None?;
      PostedCanStrand(t, i);
      OneStepStrands(s, Execute(cmd), i);
    }
  }

  // It can happen even to a call made after Close: the select in do may still pick the
  // buffered channel.
  lemma CallAfterCloseCanHang(cfg: Settings, now: Time, id: Id)
    ensures var steps := [Close, Make(AskPoll(id)), Post(0), Exit];
            && IsTrace(Start(cfg, now), steps)
            && var s := End(Start(cfg, now), steps);
               |s.calls| == 1 && s.calls[0].outcome.None? && !CanComeBack(s, 0)
  {
    var s0 := Start(cfg, now);
    ClosedPostExits(s0, id);
    hide Can, Apply, Start, CanComeBack, IsTrace, End;
    FourMore(s0, Close, Make(AskPoll(id)), Post(0), Exit);
    var steps := [Close, Make(AskPoll(id)), Post(0), Exit];
    ComesBackUnlessStranded(cfg, now, steps, 0);
  }

  lemma ClosedPostExits(s0: Shell, id: Id)
    requires s0.calls == [] && s0.queue == [] && s0.posted == [] && !s0.exited
    ensures Can(s0, Close)
    ensures var s1 := Apply(s0, Close);
            Can(s1, Make(AskPoll(id))) && var s2 := Apply(s1, Make(AskPoll(id)));
            Can(s2, Post(0)) && var s3 := Apply(s2, Post(0));
            Can(s3, Exit) && var s4 := Apply(s3, Exit);
            |s4.calls| == 1 && s4.calls[0].outcome.None? && Stranded(s4, 0)
  {
    hide StopAll, CameBack;
    var s2 := Apply(Apply(s0, Close), Make(AskPoll(id)));
    assert s2.calls == [s2.calls[0]] && s2.calls[0].req == AskPoll(id);
    var s4 := Apply(Apply(s2, Post(0)), Exit);
    assert s4.queue == [0];
  }

  lemma FourMore(s: Shell, a: Step, b: Step, c: Step, d: Step)
    requires Can(s, a) && Can(Apply(s, a), b) && Can(Apply(Apply(s, a), b), c) && Can(Apply(Apply(Apply(s, a), b), c), d)
    ensures IsTrace(s, [a, b, c, d]) && End(s, [a, b, c, d]) == Apply(Apply(Apply(Apply(s, a), b), c), d)
  {
    hide Can, Apply;
    var t := Apply(Apply(Apply(s, a), b), c);
    assert IsTrace(Apply(t, d), []) && End(Apply(t, d), []) == Apply(t, d);
    hide IsTrace, End;
    OneMore(t, d, []);
    OneMore(Apply(Apply(s, a), b), c, [d]);
    OneMore(Apply(s, a), b, [c, d]);
    OneMore(s, a, [b, c, d]);
    assert [d] + [] == [d] && [c] + [d] == [c, d] && [b] + [c, d] == [b, c, d] && [a] + [b, c, d] == [a, b, c, d];
  }

  // ---- Pushers, to the end -------------------------------------------------------------

  // Before the loop's exit the map holds exactly the pushers never told to stop; after
  // it every pusher has been told, once.
  ghost predicate PushersHeld(s: Shell) {
    if !s.exited then PushersOwned(s.broker)
    else forall pid: nat :: pid < |s.broker.pool| ==>
           Sound(s.broker.pool[pid], s.broker.cfg.maxInboxSize) && s.broker.pool[pid].stops == 1
  }

  lemma ExitStopsAll(b: Broker)
    requires PushersOwned(b)
    ensures var c := StopAll(b);
            forall pid: nat :: pid < |c.pool| ==> Sound(c.pool[pid], c.cfg.maxInboxSize) && c.pool[pid].stops == 1
  {
    hide Active, Accounted, LossesEarned;
    forall pid: nat | pid < |b.pool| ensures Sound(StopAll(b).pool[pid], b.cfg.maxInboxSize) && StopAll(b).pool[pid].stops == 1 {
      StopKeepsAccount(b.pool[pid]);
    }
  }

  lemma StepKeepsPushersHeld(s: Shell, st: Step)
    requires PushersHeld(s) && Can(s, st)
    ensures PushersHeld(Apply(s, st))
  {
    hide PushersOwned, StopAll, Exec, Admissible, Enabled, After, Sound;
    match st
    case Execute(cmd) => ExecKeepsOwnership(s.broker, cmd);
    case Tick(now, order) => ExecKeepsOwnership(s.broker, Reap(now, order));
    case Work(pid, step) =>
      if s.exited {
        StepIsSound(s.broker.pool[pid], step, s.broker.cfg.maxInboxSize);
      } else {
        PushKeepsOwnership(s.broker, pid, step);
      }
    case Exit => ExitStopsAll(s.broker);
    case _ =>
  }

  lemma {:induction false} TraceKeepsPushersHeld(s: Shell, steps: seq<Step>)
    requires PushersHeld(s) && IsTrace(s, steps)
    ensures PushersHeld(End(s, steps))
    decreases |steps|
  {
    hide PushersHeld, Can, Apply;
    if steps != [] {
      StepKeepsPushersHeld(s, steps[0]);
      TraceKeepsPushersHeld(Apply(s, steps[0]), steps[1..]);
    }
  }

  // In every reachable state no pusher has sent on or closed a closed channel, each was
  // signalled at most once and no signal was lost, and until the loop exits the signalled
  // ones are exactly those no longer in the map.
  lemma PushersAreSoundThroughout(cfg: Settings, now: Time, steps: seq<Step>, pid: nat)
    requires IsTrace(Start(cfg, now), steps) && pid < |End(Start(cfg, now), steps).broker.pool|
    ensures var s := End(Start(cfg, now), steps); var p := s.broker.pool[pid];
            && !p.panicked && p.stops <= 1
            && (p.stops == 1 <==> p.stop || p.phase.Exited?)
            && (p.stops == 1 <==> s.exited || !Active(s.broker, pid))
            && Ledgers.Subsequence(p.received + p.out, p.handed)
  {
    hide End, IsTrace, Accounted;
    InitInvariant(cfg, now);
    TraceKeepsPushersHeld(Start(cfg, now), steps);
    DeliveryIsFifo(End(Start(cfg, now), steps).broker.pool[pid]);
  }

  // In every reachable state each event that the loop handed over to a pusher is in exactly
  // one place. One lost at the mailbox came after at least a mailbox-full that had got in;
  // one lost at out, but for a timeout, after at least an out-full that had been sent.
  lemma EveryEventIsAccountedFor(cfg: Settings, now: Time, steps: seq<Step>, pid: nat)
    requires IsTrace(Start(cfg, now), steps) && pid < |End(Start(cfg, now), steps).broker.pool|
    ensures var p := End(Start(cfg, now), steps).broker.pool[pid];
            && |p.fates| == |p.handed|
            && |p.handed| == |p.mailbox| + (if p.phase.Holding? then 1 else 0) + |p.out| + |p.received|
                             + |Ledgers.Pick(p.handed, p.fates, LostAtMailbox)| + |Ledgers.Pick(p.handed, p.fates, LostAtOut)|
            && forall i :: 0 <= i < |p.handed| ==>
                 && (p.fates[i] == LostAtMailbox ==> i >= p.cap && Tally(p.fates[..i], ENTERED) >= p.cap)
                 && (p.fates[i] == LostAtOut ==>
                       p.handed[i].Blocking() || (i >= OUT_BUFFER && Tally(p.fates[..i], {Sent}) >= OUT_BUFFER))
  {
    hide End, IsTrace, Tally, Ledgers.Pick;
    InitInvariant(cfg, now);
    TraceKeepsPushersHeld(Start(cfg, now), steps);
    var p := End(Start(cfg, now), steps).broker.pool[pid];
    assert Sound(p, End(Start(cfg, now), steps).broker.cfg.maxInboxSize);
    ExactAccount(p);
    forall i: nat | i < |p.handed|
      ensures p.fates[i] == LostAtMailbox ==> i >= p.cap
      ensures p.fates[i] == LostAtOut ==> p.handed[i].Blocking() || i >= OUT_BUFFER
      ensures LossEarned(p, p.fates, i)
    {
      LossNeedsFullChannel(p, i);
    }
  }

  // The steps that one pusher and its subscriber take in a trace.
  function StepsOf(steps: seq<Step>, pid: nat): seq<Pushers.Step> {
    if steps == [] then []
    else (if steps[0].Work? && steps[0].pid == pid then [steps[0].s] else []) + StepsOf(steps[1..], pid)
  }

  lemma StoppedMovesAlone(s: Shell, st: Step, pid: nat)
    requires PushersHeld(s) && Can(s, st) && pid < |s.broker.pool| && s.broker.pool[pid].stops == 1
    ensures var t := Apply(s, st);
            && pid < |t.broker.pool| && t.broker.pool[pid].stops == 1
            && if st.Work? && st.pid == pid then
                 Enabled(s.broker.pool[pid], st.s) && t.broker.pool[pid] == After(s.broker.pool[pid], st.s)
               else t.broker.pool[pid] == s.broker.pool[pid]
  {
    hide PushersOwned, Exec, Admissible, Enabled, Sound;
    if !s.exited { StoppedIsInactive(s.broker, pid); }
    match st
    case Execute(cmd) => StoppedDuring(s.broker, cmd, pid);
    case Tick(now, order) => StoppedDuring(s.broker, Reap(now, order), pid);
    case _ =>
  }

  lemma StoppedIsInactive(b: Broker, pid: nat)
    requires PushersOwned(b) && pid < |b.pool| && b.pool[pid].stops == 1
    ensures !Active(b, pid)
  {
    hide Active, Sound;
    assert b.pool[pid].stops == if Active(b, pid) then 0 else 1;
  }

  // Once a pusher has been told to stop, nothing but its own steps and its subscriber's
  // reads ever changes it.
  lemma {:induction false} StoppedRunsAlone(s: Shell, steps: seq<Step>, pid: nat)
    requires PushersHeld(s) && IsTrace(s, steps) && pid < |s.broker.pool| && s.broker.pool[pid].stops == 1
    ensures var p, own := s.broker.pool[pid], StepsOf(steps, pid);
            && Pushers.IsRun(p, own) && pid < |End(s, steps).broker.pool|
            && End(s, steps).broker.pool[pid] == AfterAll(p, own)
    decreases |steps|
  {
    hide PushersHeld, Can, Apply, Enabled, After;
    if steps != [] {
      StepKeepsPushersHeld(s, steps[0]);
      StoppedMovesAlone(s, steps[0], pid);
      StoppedRunsAlone(Apply(s, steps[0]), steps[1..], pid);
      var rest := StepsOf(steps[1..], pid);
      if steps[0].Work? && steps[0].pid == pid {
        assert ([steps[0].s] + rest)[1..] == rest;
      } else {
        assert [] + rest == rest;
      }
    }
  }

  // So in every continuation it turns its loop at most |mailbox| + 1 times, and as long
  // as it has not closed out it has a step to take.
  lemma StoppedPusherFinishes(cfg: Settings, now: Time, steps: seq<Step>, pid: nat, more: seq<Step>)
    requires IsTrace(Start(cfg, now), steps) && IsTrace(End(Start(cfg, now), steps), more)
    requires var s := End(Start(cfg, now), steps); pid < |s.broker.pool| && s.broker.pool[pid].stops == 1
    ensures var s := End(Start(cfg, now), steps); var t := End(s, more); var p := s.broker.pool[pid];
            && pid < |t.broker.pool| && t.broker.pool[pid].handed == p.handed
            && OwnSteps(StepsOf(more, pid)) <= 2 * |p.mailbox| + 2
            && Iterations(StepsOf(more, pid)) <= |p.mailbox| + 1
            && (!t.broker.pool[pid].phase.Exited? ==> exists st :: st != Receive && Can(t, Work(pid, st)))
  {
    hide End, IsTrace, Accounted, StepsOf, Pushers.IsRun, AfterAll, Iterations, OwnSteps;
    var s := End(Start(cfg, now), steps);
    InitInvariant(cfg, now);
    TraceKeepsPushersHeld(Start(cfg, now), steps);
    StoppedRunsAlone(s, more, pid);
    StoppedRunIsShort(s.broker.pool[pid], StepsOf(more, pid));
    IterationsNeedOwnSteps(StepsOf(more, pid));
    RunHandsNothing(s.broker.pool[pid], StepsOf(more, pid));
    TraceKeepsPushersHeld(s, more);
    var t := End(s, more);
    if !t.broker.pool[pid].phase.Exited? {
      StoppedWorkerCanMove(t.broker.pool[pid]);
      var st :| st != Receive && Enabled(t.broker.pool[pid], st);
      assert Can(t, Work(pid, st));
    }
  }

  lemma {:induction false} RunHandsNothing(p: PusherState, steps: seq<Pushers.Step>)
    requires Pushers.IsRun(p, steps)
    ensures AfterAll(p, steps).handed == p.handed && AfterAll(p, steps).stops == p.stops
    decreases |steps|
  {
    if steps != [] { RunHandsNothing(After(p, steps[0]), steps[1..]); }
  }
}
