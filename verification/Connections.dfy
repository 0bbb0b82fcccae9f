// Connections and the sessions bound to them (internal/daemonrpc/server.go). Every
// connection has a handler goroutine; the handlers, the cleanup tick and the pushers
// interleave in any way, and the peer may hang up, or a write to it fail, at any moment.
module Connections {
  import opened Types
  import opened Inboxes
  import opened Pushers
  import opened BrokerModel
  import opened Effects
  import opened Shells

  // A decoded request frame. No call means an unknown method or malformed parameters.
  datatype Decoded = Req(session: Id, call: Option<Request>)
  {
    // The calls a frame can make: each acts for the session the frame names, except that
    // a lookup may name any peer.
    predicate WellFormed() {
      match call
      case None => true
      case Some(AskRegister(_)) => true
      case Some(AskLookup(_)) => true
      case Some(AskUnregister(id)) => id == session
      case Some(AskListPeers(id)) => id == session
      case Some(AskPoll(id)) => id == session
      case Some(AskSubscribe(id)) => id == session
      case Some(AskBroadcast(id, _)) => id == session
      case Some(AskSend(msg)) => msg.from == session && msg.ttl == 0
      case Some(AskTouch(_)) => false
      case Some(AskCancel(_, _)) => false
    }
  }

  type Req = r: Decoded | r.WellFormed() witness Req("", None)

  // Where the handler of a connection is.
  datatype Phase =
    | Accepted                    // its goroutine has not started
    | Reading
    | Touching(req: Req)          // the frame names a session: refresh its LastSeen first
    | Serving(req: Req)
    | Replying
    | Confirming(id: Id)          // a session is registered, its reply not yet written
    | Streaming(id: Id, pid: nat)
    | Ending                      // the deferred function: unregister the bound session
    | Closing                     // connClosed
    | AtZero                      // it was the last one: about to look for the idle hook
    | Finished

  datatype Conn = Conn(phase: Phase, bound: Option<Id>)

  datatype Server = Server(
    broker: Broker, conns: seq<Conn>, active: int, hook: bool,
    // History: every id handed out so far, with the connection that registered it; drops
    // of the count to zero; hook calls, and drops that found no hook set.
    issuer: map<Id, nat>, drops: nat, fired: nat, missed: nat)

  function Start(cfg: Settings, now: Time): Server {
    Server(Init(cfg, now), [], 0, false, map[], 0, 0, 0)
  }

  datatype Step =
    | Accept
    | Begin(c: nat)
    | Frame(c: nat, req: Req)
    | BadFrame(c: nat)            // not JSON: report it and read on
    | Hangup(c: nat)              // end of file, or a framing error
    | Refresh(c: nat, cmd: Cmd)   // Touch
    | Serve(c: nat, cmd: Cmd)
    | Reject(c: nat)
    | Written(c: nat)
    | WriteFails(c: nat)
    | StreamEnds(c: nat)
    | Unbind(c: nat)
    | Release(c: nat)             // the atomic decrement
    | Notice(c: nat)              // read the hook, and call it if it is set
    | SetHook
    | Tick(now: Time, order: seq<Id>)
    | Work(pid: nat, s: Pushers.Step)

  ghost predicate Can(s: Server, st: Step) {
    match st
    case Accept => true
    case SetHook => true
    case Begin(c) => c < |s.conns| && s.conns[c].phase.Accepted?
    case Frame(c, req) => c < |s.conns| && s.conns[c].phase.Reading?
    case BadFrame(c) => c < |s.conns| && s.conns[c].phase.Reading?
    case Hangup(c) => c < |s.conns| && s.conns[c].phase.Reading?
    case Refresh(c, cmd) =>
      && c < |s.conns| && s.conns[c].phase.Touching?
      && cmd.Touch? && cmd.id == s.conns[c].phase.req.session && Admissible(s.broker, cmd)
    case Serve(c, cmd) =>
      && c < |s.conns| && s.conns[c].phase.Serving? && s.conns[c].phase.req.call.Some?
      && s.conns[c].phase.req.call.value.FitsCmd(cmd) && Admissible(s.broker, cmd)
      && (cmd.Register? ==> cmd.id !in s.issuer)
    case Reject(c) => c < |s.conns| && s.conns[c].phase.Serving? && s.conns[c].phase.req.call.None?
    case Written(c) => c < |s.conns| && (s.conns[c].phase.Replying? || s.conns[c].phase.Confirming?)
    case WriteFails(c) => c < |s.conns| && (s.conns[c].phase.Replying? || s.conns[c].phase.Confirming?)
    case StreamEnds(c) => c < |s.conns| && s.conns[c].phase.Streaming?
    case Unbind(c) => c < |s.conns| && s.conns[c].phase.Ending?
    case Release(c) => c < |s.conns| && s.conns[c].phase.Closing?
    case Notice(c) => c < |s.conns| && s.conns[c].phase.AtZero?
    case Tick(now, order) => Admissible(s.broker, Reap(now, order))
    case Work(pid, step) => pid < |s.broker.pool| && Enabled(s.broker.pool[pid], step)
  }

  function Go(s: Server, c: nat, phase: Phase): Server
    requires c < |s.conns|
  {
    s.(conns := s.conns[c := s.conns[c].(phase := phase)])
  }

  ghost function Did(s: Server, cmd: Cmd): Server { s.(broker := Exec(s.broker, cmd).state) }

  ghost function Apply(s: Server, st: Step): Server
    requires Can(s, st)
  {
    match st
    case Accept => s.(conns := s.conns + [Conn(Accepted, None)])
    case SetHook => s.(hook := true)
    case Begin(c) => Go(s, c, Reading).(active := s.active + 1)
    case Frame(c, req) => Go(s, c, if req.session != "" then Touching(req) else Serving(req))
    case BadFrame(c) => s
    case Hangup(c) => Go(s, c, Ending)
    case Refresh(c, cmd) => Did(Go(s, c, Serving(s.conns[c].phase.req)), cmd)
    case Serve(c, cmd) =>
      if cmd.Register? then Did(Go(s, c, Confirming(cmd.id)), cmd).(issuer := s.issuer[cmd.id := c])
      else if cmd.Subscribe? then Did(Go(s, c, Streaming(cmd.id, |s.broker.pool|)), cmd)
      else Did(Go(s, c, Replying), cmd)
    case Reject(c) => Go(s, c, Replying)
    case Written(c) =>
      var p := s.conns[c].phase;
      s.(conns := s.conns[c := Conn(Reading, if p.Confirming? then Some(p.id) else s.conns[c].bound)])
    case WriteFails(c) => Go(s, c, Ending)
    case StreamEnds(c) => Did(Go(s, c, Ending), Cancel(s.conns[c].phase.id, s.conns[c].phase.pid))
    case Unbind(c) =>
      if s.conns[c].bound.Some? then Did(Go(s, c, Closing), Unregister(s.conns[c].bound.value)) else Go(s, c, Closing)
    case Release(c) =>
      if s.active == 1 then Go(s, c, AtZero).(active := 0, drops := s.drops + 1)
      else Go(s, c, Finished).(active := s.active - 1)
    case Notice(c) =>
      if s.hook then Go(s, c, Finished).(fired := s.fired + 1) else Go(s, c, Finished).(missed := s.missed + 1)
    case Tick(now, order) => Did(s, Reap(now, order))
    case Work(pid, step) => s.(broker := Next(s.broker, Push(pid, step)))
  }

  ghost predicate IsTrace(s: Server, steps: seq<Step>)
    decreases |steps|
  {
    steps == [] || (Can(s, steps[0]) && IsTrace(Apply(s, steps[0]), steps[1..]))
  }

  ghost function End(s: Server, steps: seq<Step>): Server
    requires IsTrace(s, steps)
    decreases |steps|
  {
    if steps == [] then s else End(Apply(s, steps[0]), steps[1..])
  }

  // ---- Counting ----------------------------------------------------------------------

  // Handlers that have started and not yet given up their place in the count.
  predicate Counted(c: Conn) { !c.phase.Accepted? && !c.phase.AtZero? && !c.phase.Finished? }

  predicate Noticing(c: Conn) { c.phase.AtZero? }

  function Count(conns: seq<Conn>, f: Conn -> bool): nat {
    if conns == [] then 0 else Count(conns[..|conns| - 1], f) + if f(conns[|conns| - 1]) then 1 else 0
  }

  lemma {:induction false} CountAfter(conns: seq<Conn>, f: Conn -> bool, c: nat, x: Conn)
    requires c < |conns|
    ensures Count(conns[c := x], f) == Count(conns, f) - (if f(conns[c]) then 1 else 0) + if f(x) then 1 else 0
  {
    var n := |conns| - 1;
    if c < n {
      CountAfter(conns[..n], f, c, x);
      assert conns[c := x][..n] == conns[..n][c := x];
    } else {
      assert conns[c := x][..n] == conns[..n];
    }
  }

  lemma CountAppend(conns: seq<Conn>, f: Conn -> bool, x: Conn)
    ensures Count(conns + [x], f) == Count(conns, f) + if f(x) then 1 else 0
  {
    assert (conns + [x])[..|conns|] == conns;
  }

  ghost predicate CountsAgree(s: Server) {
    && s.active == Count(s.conns, Counted)
    && s.drops == s.fired + s.missed + Count(s.conns, Noticing)
  }

  // ---- Bindings ------------------------------------------------------------------------

  ghost predicate Issued(s: Server, id: Id, c: nat) { id in s.issuer && s.issuer[id] == c }

  // A connection binds, or is about to bind, only a session that it registered itself, and
  // never binds one before its registration is confirmed.
  ghost predicate BindsOwn(s: Server) {
    forall c: nat :: c < |s.conns| ==>
      && (s.conns[c].bound.Some? ==> Issued(s, s.conns[c].bound.value, c))
      && (s.conns[c].phase.Confirming? ==>
            Issued(s, s.conns[c].phase.id, c) && s.conns[c].bound != Some(s.conns[c].phase.id))
  }

  lemma StepKeepsCounts(s: Server, st: Step)
    requires CountsAgree(s) && Can(s, st)
    ensures CountsAgree(Apply(s, st))
  {
    hide Exec, Next, Admissible, Enabled, Count;
    if st.Accept? {
      CountAppend(s.conns, Counted, Conn(Accepted, None));
      CountAppend(s.conns, Noticing, Conn(Accepted, None));
    } else if !st.SetHook? && !st.Tick? && !st.Work? {
      var x := Apply(s, st).conns[st.c];
      CountAfter(s.conns, Counted, st.c, x);
      CountAfter(s.conns, Noticing, st.c, x);
    }
  }

  // One connection moves on; ids are only ever added to the issued ones.
  lemma MoveKeepsBindings(s: Server, t: Server, c: nat)
    requires BindsOwn(s) && c < |s.conns| == |t.conns| && t.conns == s.conns[c := t.conns[c]]
    requires forall id :: id in s.issuer ==> id in t.issuer && t.issuer[id] == s.issuer[id]
    requires t.conns[c].bound.Some? ==>
               t.conns[c].bound == s.conns[c].bound || Issued(t, t.conns[c].bound.value, c)
    requires t.conns[c].phase.Confirming? ==>
               t.conns[c] == s.conns[c] || (Issued(t, t.conns[c].phase.id, c) && t.conns[c].bound != Some(t.conns[c].phase.id))
    ensures BindsOwn(t)
  {
  }

  // Most steps are taken by one connection's handler.
  predicate ByHandler(st: Step) { !st.Accept? && !st.SetHook? && !st.Tick? && !st.Work? }

  lemma HandlerMoves(s: Server, st: Step)
    requires Can(s, st) && ByHandler(st)
    ensures var t := Apply(s, st);
            && st.c < |s.conns| == |t.conns| && t.conns == s.conns[st.c := t.conns[st.c]]
            && forall id :: id in s.issuer ==> id in t.issuer && t.issuer[id] == s.issuer[id]
  {
    hide Exec, Next, Admissible, Enabled;
  }

  // What its connection is bound to then.
  lemma HandlerBinds(s: Server, st: Step)
    requires Can(s, st) && ByHandler(st) && st.c < |Apply(s, st).conns|
    requires s.conns[st.c].phase.Confirming? ==> Issued(s, s.conns[st.c].phase.id, st.c)
    requires s.conns[st.c].bound.Some? ==> Issued(s, s.conns[st.c].bound.value, st.c)
    ensures var t := Apply(s, st); var x, y := s.conns[st.c], t.conns[st.c];
            && (y.bound.Some? ==> y.bound == x.bound || Issued(t, y.bound.value, st.c))
            && (y.phase.Confirming? ==> y == x || (Issued(t, y.phase.id, st.c) && y.bound != Some(y.phase.id)))
  {
    hide Exec, Next, Admissible, Enabled;
  }

  lemma StepKeepsBindings(s: Server, st: Step)
    requires BindsOwn(s) && Can(s, st)
    ensures BindsOwn(Apply(s, st))
  {
    var t := Apply(s, st);
    if ByHandler(st) {
      HandlerMoves(s, st);
      HandlerBinds(s, st);
      hide Can, Apply, Issued;
      MoveKeepsBindings(s, t, st.c);
    } else {
      hide Exec, Next, Admissible, Enabled;
      assert t.issuer == s.issuer && t.conns[..|s.conns|] == s.conns;
    }
  }

  // ---- Every run -------------------------------------------------------------------------

  lemma {:induction false} TraceKeeps(s: Server, steps: seq<Step>)
    requires CountsAgree(s) && BindsOwn(s) && IsTrace(s, steps)
    ensures CountsAgree(End(s, steps)) && BindsOwn(End(s, steps))
    decreases |steps|
  {
    hide CountsAgree, BindsOwn, Can, Apply;
    if steps != [] {
      StepKeepsCounts(s, steps[0]);
      StepKeepsBindings(s, steps[0]);
      TraceKeeps(Apply(s, steps[0]), steps[1..]);
    }
  }

  // The active count is the handlers started minus those finished; every drop to zero
  // has fired the hook, is about to look for it, or came before it was set; and no two
  // connections, open or not, hold the same session.
  lemma ReachableServer(cfg: Settings, now: Time, steps: seq<Step>)
    requires IsTrace(Start(cfg, now), steps)
    ensures var s := End(Start(cfg, now), steps);
            && s.active == Count(s.conns, Counted)
            && s.drops == s.fired + s.missed + Count(s.conns, Noticing)
            && forall c, d :: 0 <= c < d < |s.conns| && s.conns[c].bound.Some? ==> s.conns[c].bound != s.conns[d].bound
  {
    hide IsTrace, End;
    TraceKeeps(Start(cfg, now), steps);
    var s := End(Start(cfg, now), steps);
    forall c, d | 0 <= c < d < |s.conns| && s.conns[c].bound.Some? ensures s.conns[c].bound != s.conns[d].bound {
      assert Issued(s, s.conns[c].bound.value, c);
      if s.conns[d].bound.Some? { assert Issued(s, s.conns[d].bound.value, d); }
    }
  }

  // Once the hook is set it never misses a drop again.
  lemma {:induction false} HookMissesNothing(s: Server, steps: seq<Step>)
    requires s.hook && IsTrace(s, steps)
    ensures End(s, steps).hook && End(s, steps).missed == s.missed
    decreases |steps|
  {
    hide Exec, Next, Can;
    if steps != [] {
      HookMissesNothing(Apply(s, steps[0]), steps[1..]);
    }
  }

  // From then on the hook fires exactly once per drop to zero.
  lemma HookFiresOncePerDrop(cfg: Settings, now: Time, before: seq<Step>, after: seq<Step>)
    requires IsTrace(Start(cfg, now), before) && End(Start(cfg, now), before).hook
    requires IsTrace(End(Start(cfg, now), before), after)
    ensures var s := End(Start(cfg, now), before); var t := End(s, after);
            t.fired - s.fired + Count(t.conns, Noticing) == t.drops - s.drops + Count(s.conns, Noticing)
  {
    hide IsTrace, End, Count;
    var s := End(Start(cfg, now), before);
    assert CountsAgree(Start(cfg, now)) by { NoConnections(); }
    TraceKeeps(Start(cfg, now), before);
    TraceKeeps(s, after);
    HookMissesNothing(s, after);
  }

  lemma NoConnections()
    ensures Count([], Counted) == 0 && Count([], Noticing) == 0
  {
  }

  // ---- What a connection binds ---------------------------------------------------------------

  // The session that connection c binds, as the steps of a run tell it: the last one whose
  // registration was confirmed to the peer over c.
  ghost function LastConfirmed(s: Server, steps: seq<Step>, c: nat, before: Option<Id>): Option<Id>
    requires IsTrace(s, steps)
    decreases |steps|
  {
    if steps == [] then before
    else
      var st := steps[0];
      LastConfirmed(Apply(s, st), steps[1..], c,
                    if st == Written(c) && s.conns[c].phase.Confirming? then Some(s.conns[c].phase.id) else before)
  }

  lemma StepBinds(s: Server, st: Step, c: nat)
    requires Can(s, st)
    ensures var t := Apply(s, st);
            && |s.conns| <= |t.conns|
            && (c < |s.conns| ==>
                  t.conns[c].bound == if st == Written(c) && s.conns[c].phase.Confirming? then Some(s.conns[c].phase.id) else s.conns[c].bound)
            && (|s.conns| <= c < |t.conns| ==> t.conns[c].bound == None)
  {
    hide Exec, Next, Admissible, Enabled;
  }

  // Over any run: a connection binds exactly that session, and so its end unregisters it.
  lemma {:induction false} BindsLastConfirmed(s: Server, steps: seq<Step>, c: nat)
    requires IsTrace(s, steps) && c < |End(s, steps).conns|
    ensures End(s, steps).conns[c].bound == LastConfirmed(s, steps, c, if c < |s.conns| then s.conns[c].bound else None)
    decreases |steps|
  {
    hide Can, Apply;
    if steps != [] {
      StepBinds(s, steps[0], c);
      if c >= |s.conns| { NotYetThere(s, steps[0], c); }
      BindsLastConfirmed(Apply(s, steps[0]), steps[1..], c);
    }
  }

  lemma NotYetThere(s: Server, st: Step, c: nat)
    requires Can(s, st) && c >= |s.conns|
    ensures st != Written(c)
  {
  }

  // ---- Requests refresh their session --------------------------------------------------------

  // Whether the session of the request that connection c is at has been touched for it.
  ghost predicate TouchedAfter(s: Server, st: Step, c: nat, touched: bool)
    requires Can(s, st)
  {
    if st.Frame? && st.c == c then false
    else if st.Refresh? && st.c == c then st.cmd.Touch? && st.cmd.id == s.conns[c].phase.req.session
    else touched
  }

  ghost predicate Touched(s: Server, steps: seq<Step>, c: nat, before: bool)
    requires IsTrace(s, steps)
    decreases |steps|
  {
    if steps == [] then before else Touched(Apply(s, steps[0]), steps[1..], c, TouchedAfter(s, steps[0], c, before))
  }

  // Serving a request in the name of a session.
  predicate ServesSession(s: Server, c: nat) {
    c < |s.conns| && s.conns[c].phase.Serving? && s.conns[c].phase.req.session != ""
  }

  // Over any run: a request that names a session is served only once that session has been
  // touched on its behalf.
  lemma {:induction false} ServedAfterTouch(s: Server, steps: seq<Step>, c: nat, before: bool)
    requires IsTrace(s, steps) && (ServesSession(s, c) ==> before)
    ensures ServesSession(End(s, steps), c) ==> Touched(s, steps, c, before)
    decreases |steps|
  {
    hide Can, Apply, ServesSession, TouchedAfter;
    if steps != [] {
      StepServes(s, steps[0], c, before);
      ServedAfterTouch(Apply(s, steps[0]), steps[1..], c, TouchedAfter(s, steps[0], c, before));
    }
  }

  lemma StepServes(s: Server, st: Step, c: nat, before: bool)
    requires Can(s, st) && (ServesSession(s, c) ==> before)
    ensures ServesSession(Apply(s, st), c) ==> TouchedAfter(s, st, c, before)
  {
    hide Exec, Next, Admissible, Enabled;
  }

  // ---- How sessions leave --------------------------------------------------------------------

  // The three ways a step takes session id, registered over connection c, away: a request,
  // over any connection, made in the session's own name; the end of c, if c binds it; and a
  // reap.
  ghost predicate Removes(s: Server, st: Step, id: Id, c: nat) {
    || (st.Serve? && st.c < |s.conns| && s.conns[st.c].phase == Serving(Decoded.Req(id, Some(AskUnregister(id)))))
    || (st == Unbind(c) && c < |s.conns| && s.conns[c].bound == Some(id))
    || (st.Tick? && Stale(s.broker, id, st.now))
  }

  lemma CommandRemoves(b: Broker, cmd: Cmd, id: Id)
    requires id in b.sessions && Admissible(b, cmd)
    ensures id !in Exec(b, cmd).state.sessions <==> cmd == Unregister(id) || (cmd.Reap? && Stale(b, id, cmd.now))
  {
    EntryAfterIsRight(b, cmd, id);
    if cmd.Broadcast? { ChargedKeys(b, cmd.id, cmd.now); }
    hide Exec, AfterFan, Charged, HasToken, Unexpired, Enqueued;
  }

  // A frame that makes the broker unregister a session is in that session's name.
  lemma OwnRequest(req: Req, cmd: Cmd, id: Id)
    requires req.call.Some? && req.call.value.FitsCmd(cmd)
    ensures cmd == Unregister(id) <==> req == Decoded.Req(id, Some(AskUnregister(id)))
  {
    assert req.WellFormed();
  }

  // The command that a step has the broker run, if any.
  function CommandOf(s: Server, st: Step): Option<Cmd> {
    match st
    case Serve(_, cmd) => Some(cmd)
    case Refresh(_, cmd) => Some(cmd)
    case StreamEnds(c) =>
      if c < |s.conns| && s.conns[c].phase.Streaming? then Some(Cancel(s.conns[c].phase.id, s.conns[c].phase.pid)) else None
    case Unbind(c) => if c < |s.conns| && s.conns[c].bound.Some? then Some(Unregister(s.conns[c].bound.value)) else None
    case Tick(now, order) => Some(Reap(now, order))
    case _ => None
  }

  lemma StepRunsCommand(s: Server, st: Step)
    requires Can(s, st)
    ensures match CommandOf(s, st)
            case Some(cmd) => Admissible(s.broker, cmd) && Apply(s, st).broker == Exec(s.broker, cmd).state
            case None => Apply(s, st).broker.sessions == s.broker.sessions
  {
    hide Exec;
  }

  // A session leaves the broker exactly by its own request, by the end of the very
  // connection that registered and still binds it, or by a reap that finds it stale.
  lemma SessionLeaves(s: Server, st: Step, id: Id, c: nat)
    requires Can(s, st) && BindsOwn(s) && id in s.broker.sessions && Issued(s, id, c)
    ensures id !in Apply(s, st).broker.sessions <==> Removes(s, st, id, c)
  {
    hide Exec, Apply, Admissible, Enabled, Stale;
    StepRunsCommand(s, st);
    var cmd := CommandOf(s, st);
    if cmd.Some? {
      CommandRemoves(s.broker, cmd.value, id);
      if st.Serve? { OwnRequest(s.conns[st.c].phase.req, st.cmd, id); }
      if st.Unbind? { assert Issued(s, s.conns[st.c].bound.value, st.c); }
    }
  }

  ghost predicate Undisturbed(s: Server, steps: seq<Step>, id: Id, c: nat)
    requires IsTrace(s, steps)
    decreases |steps|
  {
    steps == [] || (!Removes(s, steps[0], id, c) && Undisturbed(Apply(s, steps[0]), steps[1..], id, c))
  }

  // Over any run, a session stays as long as none of the three happens to it, whatever
  // other connections do.
  lemma {:induction false} SessionStays(s: Server, steps: seq<Step>, id: Id, c: nat)
    requires BindsOwn(s) && IsTrace(s, steps) && Undisturbed(s, steps, id, c)
    requires id in s.broker.sessions && Issued(s, id, c)
    ensures id in End(s, steps).broker.sessions && Issued(End(s, steps), id, c)
    decreases |steps|
  {
    hide Can, Apply, BindsOwn, Removes;
    if steps != [] {
      SessionLeaves(s, steps[0], id, c);
      StepKeepsBindings(s, steps[0]);
      IssuedStays(s, steps[0], id, c);
      SessionStays(Apply(s, steps[0]), steps[1..], id, c);
    }
  }

  lemma IssuedStays(s: Server, st: Step, id: Id, c: nat)
    requires Can(s, st) && Issued(s, id, c)
    ensures Issued(Apply(s, st), id, c)
  {
    hide Exec, Next, Admissible, Enabled;
  }

  // The end of a connection removes exactly the session it binds: nothing if it never
  // registered one, and only the last of several.
  lemma EndRemovesExactlyTheBound(s: Server, c: nat)
    requires Can(s, Unbind(c))
    ensures var gone := if s.conns[c].bound.Some? then {s.conns[c].bound.value} else {};
            Apply(s, Unbind(c)).broker.sessions == s.broker.sessions - gone
    ensures s.conns[c].bound.None? ==> Apply(s, Unbind(c)).broker == s.broker
  {
    if s.conns[c].bound.Some? {
      var id := s.conns[c].bound.value;
      RemoveSessionEffect(s.broker, id);
      if id !in s.broker.sessions { assert s.broker.sessions - {id} == s.broker.sessions; }
    } else {
      assert s.broker.sessions - {} == s.broker.sessions;
    }
    hide NotifyPeers, DropPusher, RemoveSession;
  }

  // A session whose registration could not be confirmed to the peer outlives its connection,
  // whatever that connection bound before.
  lemma UnconfirmedSessionStays(s: Server, c: nat)
    requires BindsOwn(s) && Can(s, WriteFails(c)) && s.conns[c].phase.Confirming? && s.conns[c].phase.id in s.broker.sessions
    ensures var t := Apply(s, WriteFails(c));
            Can(t, Unbind(c)) && s.conns[c].phase.id in Apply(t, Unbind(c)).broker.sessions
  {
  }
}
