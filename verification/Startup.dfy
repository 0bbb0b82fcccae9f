// Which daemon owns the socket (startDaemon, acquireLock, recoverStaleSocket, listen and
// shutdownNow of cmd/claude-bridge/serve.go; ensureDaemon and spawnUnderLock of
// cmd/claude-bridge/spawn.go). Any number of daemons and shims run at once, each system
// call is one step, and any process may crash between two of them: the kernel then drops
// its flock and its listener, but the socket file stays.
module Startup {
  import opened Types

  datatype Phase =
    // serve
    | Launched      // about to take the flock
    | Checking      // holds it: does the socket file exist?
    | Dialing       // it does: does anybody answer?
    | Removing      // nobody did
    | Binding
    | Bound         // the socket file is there, but does not answer yet
    | Listening
    | Secured       // permissions set
    | Aborting      // setup failed: about to close the listener
    | Ready         // set up: about to release the flock
    | Serving
    | Stopping      // shutdownNow: about to remove the socket file
    | Unlinked      // about to remove the pid file
    | PidGone       // about to close the listener
    | Leaving       // gives up: about to release the flock
    // ensureDaemon
    | Connecting
    | Waiting       // nobody answered: about to take the flock
    | Rechecking
    | Forking
    | Releasing
    | Polling
    | Connected(to: nat)
    // a process that is gone
    | Exited

  datatype State = State(
    procs: seq<Phase>,
    lock: Option<nat>,   // who holds the flock
    sock: Option<nat>,   // who bound the socket that the path names
    pid: Option<nat>)    // what the pid file says

  const START := State([], None, None, None)

  predicate Holds(ph: Phase) {
    match ph
    case Launched | Serving | Stopping | Unlinked | PidGone | Connecting | Waiting | Polling | Connected(_) | Exited => false
    case _ => true
  }

  // Past check-and-bind, up to the moment it gives its own socket file up.
  predicate Owns(ph: Phase) {
    match ph
    case Bound | Listening | Secured | Aborting | Ready | Serving | Stopping => true
    case _ => false
  }

  predicate WrotePid(ph: Phase) { ph.Ready? || ph.Serving? || ph.Stopping? }

  // Closing down, with the socket file already removed and the listener still to close.
  predicate ClosingDown(ph: Phase) { ph.Unlinked? || ph.PidGone? }

  predicate Open(ph: Phase) { (Owns(ph) && !ph.Bound?) || ClosingDown(ph) }

  // Whether a dial of the path is answered.
  predicate Answered(s: State) {
    s.sock.Some? && s.sock.value < |s.procs| && Open(s.procs[s.sock.value])
  }

  datatype Step =
    | Launch                  // somebody runs serve
    | StartShim               // somebody runs a shim
    | Lock(p: nat)
    | LockFails(p: nat)
    | Stat(p: nat)
    | Dial(p: nat)
    | Remove(p: nat)
    | RemoveFails(p: nat)     // the error is ignored
    | Bind(p: nat)
    | BindFails(p: nat)
    | Listen(p: nat)
    | ListenFails(p: nat)     // the file stays behind
    | Chmod(p: nat)
    | WritePid(p: nat)
    | SetupFails(p: nat, truncated: bool)
    | Fork(p: nat)
    | ForkFails(p: nat)
    | Release(p: nat)
    | Stop(p: nat)            // a signal, or the idle timer
    | Unlink(p: nat)
    | RemovePid(p: nat)
    | CloseListener(p: nat)   // unlinks whatever file the path names
    | GiveUp(p: nat)          // the spawn timeout
    | Crash(p: nat)

  predicate Can(s: State, st: Step) {
    match st
    case Launch => true
    case StartShim => true
    case Lock(p) => p < |s.procs| && (s.procs[p].Launched? || s.procs[p].Waiting?) && s.lock.None?
    case LockFails(p) => p < |s.procs| && (s.procs[p].Launched? || s.procs[p].Waiting?)
    case Stat(p) => p < |s.procs| && s.procs[p].Checking?
    case Dial(p) => p < |s.procs| && (s.procs[p].Dialing? || s.procs[p].Connecting? || s.procs[p].Rechecking? || s.procs[p].Polling?)
    case Remove(p) => p < |s.procs| && s.procs[p].Removing?
    case RemoveFails(p) => p < |s.procs| && s.procs[p].Removing?
    case Bind(p) => p < |s.procs| && s.procs[p].Binding? && s.sock.None?
    case BindFails(p) => p < |s.procs| && s.procs[p].Binding?
    case Listen(p) => p < |s.procs| && s.procs[p].Bound?
    case ListenFails(p) => p < |s.procs| && s.procs[p].Bound?
    case Chmod(p) => p < |s.procs| && s.procs[p].Listening?
    case WritePid(p) => p < |s.procs| && s.procs[p].Secured?
    case SetupFails(p, _) => p < |s.procs| && (s.procs[p].Listening? || s.procs[p].Secured?)
    case Fork(p) => p < |s.procs| && s.procs[p].Forking?
    case ForkFails(p) => p < |s.procs| && s.procs[p].Forking?
    case Release(p) => p < |s.procs| && (s.procs[p].Ready? || s.procs[p].Leaving? || s.procs[p].Releasing?)
    case Stop(p) => p < |s.procs| && s.procs[p].Serving?
    case Unlink(p) => p < |s.procs| && s.procs[p].Stopping?
    case RemovePid(p) => p < |s.procs| && s.procs[p].Unlinked?
    case CloseListener(p) => p < |s.procs| && (s.procs[p].Aborting? || s.procs[p].PidGone?)
    case GiveUp(p) => p < |s.procs| && s.procs[p].Polling?
    case Crash(p) => p < |s.procs|
  }

  function To(s: State, p: nat, ph: Phase): State
    requires p < |s.procs|
  {
    s.(procs := s.procs[p := ph])
  }

  function AfterDial(s: State, ph: Phase): Phase {
    match ph
    case Dialing => if Answered(s) then Leaving else Removing
    case Rechecking => if Answered(s) then Releasing else Forking
    case _ =>
      if Answered(s) then Connected(s.sock.value) else if ph == Connecting then Waiting else Polling
  }

  function Apply(s: State, st: Step): State
    requires Can(s, st)
  {
    match st
    case Launch => s.(procs := s.procs + [Launched])
    case StartShim => s.(procs := s.procs + [Connecting])
    case Lock(p) => To(s, p, if s.procs[p] == Launched then Checking else Rechecking).(lock := Some(p))
    case LockFails(p) => To(s, p, Exited)
    case Stat(p) => To(s, p, if s.sock.Some? then Dialing else Binding)
    case Dial(p) => To(s, p, AfterDial(s, s.procs[p]))
    case Remove(p) => To(s, p, Binding).(sock := None)
    case RemoveFails(p) => To(s, p, Binding)
    case Bind(p) => To(s, p, Bound).(sock := Some(p))
    case BindFails(p) => To(s, p, Leaving)
    case Listen(p) => To(s, p, Listening)
    case ListenFails(p) => To(s, p, Leaving)
    case Chmod(p) => To(s, p, Secured)
    case WritePid(p) => To(s, p, Ready).(pid := Some(p))
    case SetupFails(p, truncated) => To(s, p, Aborting).(pid := if s.procs[p].Secured? && truncated then None else s.pid)
    case Fork(p) => To(s, p, Releasing).(procs := s.procs[p := Releasing] + [Launched])
    case ForkFails(p) => To(s, p, Leaving)
    case Release(p) =>
      To(s, p, match s.procs[p] case Ready => Serving case Releasing => Polling case _ => Exited).(lock := None)
    case Stop(p) => To(s, p, Stopping)
    case Unlink(p) => To(s, p, Unlinked).(sock := None)
    case RemovePid(p) => To(s, p, PidGone).(pid := None)
    case CloseListener(p) => To(s, p, if s.procs[p] == Aborting then Leaving else Exited).(sock := None)
    case GiveUp(p) => To(s, p, Exited)
    case Crash(p) => To(s, p, Exited).(lock := if s.lock == Some(p) then None else s.lock)
  }

  predicate IsTrace(steps: seq<Step>)
    decreases |steps|, 0
  {
    steps == [] || (IsTrace(steps[..|steps| - 1]) && Can(End(steps[..|steps| - 1]), steps[|steps| - 1]))
  }

  function End(steps: seq<Step>): State
    requires IsTrace(steps)
    decreases |steps|, 1
  {
    if steps == [] then START else Apply(End(steps[..|steps| - 1]), steps[|steps| - 1])
  }

  lemma TraceSnoc(steps: seq<Step>, st: Step)
    requires IsTrace(steps)
    ensures IsTrace(steps + [st]) <==> Can(End(steps), st)
    ensures Can(End(steps), st) ==> End(steps + [st]) == Apply(End(steps), st)
  {
    assert (steps + [st])[..|steps|] == steps;
  }

  lemma {:induction false} PrefixIsTrace(steps: seq<Step>, k: nat)
    requires IsTrace(steps) && k <= |steps|
    ensures IsTrace(steps[..k])
    ensures k < |steps| ==>
              && Can(End(steps[..k]), steps[k])
              && IsTrace(steps[..k + 1]) && End(steps[..k + 1]) == Apply(End(steps[..k]), steps[k])
    decreases |steps|
  {
    hide Can, Apply;
    if k == |steps| {
      assert steps[..k] == steps;
    } else {
      var n := |steps| - 1;
      if k < n {
        PrefixIsTrace(steps[..n], k);
        assert steps[..n][..k] == steps[..k] && steps[..n][..k + 1] == steps[..k + 1];
      } else {
        assert steps[..k + 1] == steps;
      }
    }
  }

  // ---- One owner at a time --------------------------------------------------------

  // Every live daemon past check-and-bind has its socket at the path.
  predicate Exclusive(s: State) {
    forall p :: 0 <= p < |s.procs| && Owns(s.procs[p]) ==> s.sock == Some(p)
  }

  // The processes inside a startup section are those that hold the flock.
  predicate Locked(s: State) {
    && (forall p :: 0 <= p < |s.procs| ==> (Holds(s.procs[p]) <==> s.lock == Some(p)))
    && (s.lock.Some? ==> s.lock.value < |s.procs|)
  }

  // Besides, the path names the socket of an owner or of a dead process, and what is about
  // to be removed is a dead process's.
  predicate Orderly(s: State) {
    && Locked(s)
    && (s.sock.Some? ==> s.sock.value < |s.procs| &&
                         (Owns(s.procs[s.sock.value]) || s.procs[s.sock.value].Leaving? || s.procs[s.sock.value].Exited?))
    && (forall p :: 0 <= p < |s.procs| && s.procs[p].Removing? && s.sock.Some? ==> s.procs[s.sock.value].Exited?)
  }

  // A closing listener unlinks the path although another daemon has bound it by now.
  predicate Foreign(s: State, st: Step) {
    && Can(s, st) && st.CloseListener? && s.procs[st.p] == PidGone
    && exists q :: 0 <= q < |s.procs| && Owns(s.procs[q])
  }

  // One process moves on; any new one has just been started.
  predicate Moves(s: State, t: State, p: nat) {
    && p < |s.procs| <= |t.procs|
    && (forall q :: 0 <= q < |s.procs| && q != p ==> t.procs[q] == s.procs[q])
    && (forall q :: |s.procs| <= q < |t.procs| ==> t.procs[q].Launched? || t.procs[q].Connecting?)
    && (if Holds(t.procs[p]) then t.lock == Some(p) && (s.lock.None? || s.lock == Some(p))
        else t.lock == if s.lock == Some(p) then None else s.lock)
    && !s.procs[p].Exited?
  }

  lemma MoveKeepsLock(s: State, t: State, p: nat)
    requires Locked(s) && Moves(s, t, p)
    ensures Locked(t)
  {
    forall q | 0 <= q < |t.procs| ensures Holds(t.procs[q]) <==> t.lock == Some(q) {
      if q < |s.procs| && q != p { assert Holds(s.procs[q]) <==> s.lock == Some(q); }
    }
  }

  lemma MoveKeepsOrder(s: State, t: State, p: nat)
    requires Orderly(s) && Moves(s, t, p)
    requires t.sock == s.sock || t.sock.None? || (t.sock == Some(p) && Owns(t.procs[p]))
    requires t.sock == Some(p) ==> Owns(t.procs[p]) || t.procs[p].Leaving? || t.procs[p].Exited?
    requires t.procs[p].Removing? && t.sock.Some? ==> t.sock == s.sock && s.procs[s.sock.value].Exited?
    requires t.sock.Some? && t.sock != s.sock ==> s.lock == Some(p)
    ensures Orderly(t)
  {
    MoveKeepsLock(s, t, p);
    if t.sock.Some? && t.sock == s.sock && t.sock != Some(p) { assert Owns(t.procs[t.sock.value]) == Owns(s.procs[s.sock.value]); }
    forall q | 0 <= q < |t.procs| && t.procs[q].Removing? && t.sock.Some? ensures t.procs[t.sock.value].Exited? {
      if q != p { assert Holds(s.procs[q]) && s.procs[q].Removing?; }
    }
  }

  lemma MoveKeepsExclusive(s: State, t: State, p: nat)
    requires Exclusive(s) && Moves(s, t, p)
    requires Owns(t.procs[p]) ==> t.sock == Some(p)
    requires t.sock == s.sock || forall q :: 0 <= q < |s.procs| && q != p ==> !Owns(s.procs[q])
    ensures Exclusive(t)
  {
  }

  // The process that takes a step; launches have none.
  function Actor(st: Step): Option<nat> {
    match st
    case Launch | StartShim => None
    case _ => Some(st.p)
  }

  lemma StepMoves(s: State, st: Step)
    requires Locked(s) && Can(s, st) && Actor(st).Some? && !s.procs[st.p].Exited?
    ensures Moves(s, Apply(s, st), st.p)
  {
    assert Holds(s.procs[st.p]) <==> s.lock == Some(st.p);
    hide Locked;
    StepMovesOne(s, st);
    LockAfter(s, st);
    hide Can, Apply;
  }

  lemma StepMovesOne(s: State, st: Step)
    requires Can(s, st) && Actor(st).Some?
    ensures var t, p := Apply(s, st), st.p;
            && p < |s.procs| <= |t.procs|
            && (forall q :: 0 <= q < |s.procs| && q != p ==> t.procs[q] == s.procs[q])
            && (forall q :: |s.procs| <= q < |t.procs| ==> t.procs[q].Launched?)
  {
    hide AfterDial;
  }

  lemma LockAfter(s: State, st: Step)
    requires Can(s, st) && Actor(st).Some? && !s.procs[st.p].Exited? && (Holds(s.procs[st.p]) <==> s.lock == Some(st.p))
    ensures var t, p := Apply(s, st), st.p;
            && p < |t.procs|
            && if Holds(t.procs[p]) then t.lock == Some(p) && (s.lock.None? || s.lock == Some(p))
               else t.lock == if s.lock == Some(p) then None else s.lock
  {
    hide Answered;
  }

  // A process that is gone can only crash once more, to no effect.
  lemma ExitedStays(s: State, st: Step)
    requires Locked(s) && Can(s, st) && Actor(st).Some? && s.procs[st.p].Exited?
    ensures Apply(s, st) == s
  {
    assert st.Crash?;
    assert !Holds(s.procs[st.p]);
    assert s.procs[st.p := Exited] == s.procs;
  }

  lemma LaunchKeepsLock(s: State, t: State)
    requires Locked(s)
    requires t == s.(procs := s.procs + [Launched]) || t == s.(procs := s.procs + [Connecting])
    ensures Locked(t)
  {
  }

  lemma StepKeepsLock(s: State, st: Step)
    requires Locked(s) && Can(s, st)
    ensures Locked(Apply(s, st))
  {
    if Actor(st).None? {
      LaunchKeepsLock(s, Apply(s, st));
    } else if s.procs[st.p].Exited? {
      ExitedStays(s, st);
    } else {
      StepMoves(s, st);
      MoveKeepsLock(s, Apply(s, st), st.p);
    }
  }

  // In every run, whatever crashes and whatever is unlinked.
  lemma {:induction false} TraceIsLocked(steps: seq<Step>)
    requires IsTrace(steps)
    ensures Locked(End(steps))
  {
    hide Can, Apply, Locked;
    if steps != [] {
      TraceIsLocked(steps[..|steps| - 1]);
      StepKeepsLock(End(steps[..|steps| - 1]), steps[|steps| - 1]);
    } else {
      assert Locked(START) by { StartIsLocked(); }
    }
  }

  lemma StartIsLocked()
    ensures Locked(START)
  {
  }

  // The startup sections of all processes exclude each other.
  lemma StartupSectionsExclude(steps: seq<Step>, p: nat, q: nat)
    requires IsTrace(steps) && p < |End(steps).procs| && q < |End(steps).procs|
    ensures Holds(End(steps).procs[p]) && Holds(End(steps).procs[q]) ==> p == q
  {
    TraceIsLocked(steps);
  }

  lemma DialFindsOut(s: State, p: nat)
    requires Orderly(s) && p < |s.procs| && Holds(s.procs[p]) && !Owns(s.procs[p]) && !s.procs[p].Leaving?
    ensures s.sock.Some? && !Answered(s) ==> s.procs[s.sock.value].Exited?
  {
    if s.sock.Some? {
      var o := s.sock.value;
      assert Holds(s.procs[o]) <==> s.lock == Some(o);
      assert Holds(s.procs[p]) <==> s.lock == Some(p);
    }
  }

  // Where the path points after a step.
  lemma SockAfter(s: State, st: Step)
    requires Orderly(s) && Exclusive(s) && Can(s, st) && Actor(st).Some? && !s.procs[st.p].Exited?
    ensures var t, p := Apply(s, st), st.p;
            && p < |t.procs|
            && (t.sock == s.sock || t.sock.None? || (t.sock == Some(p) && Owns(t.procs[p]) && s.lock == Some(p)))
            && (t.sock == Some(p) ==> Owns(t.procs[p]) || t.procs[p].Leaving? || t.procs[p].Exited?)
            && (Owns(t.procs[p]) ==> t.sock == Some(p))
  {
    assert Owns(s.procs[st.p]) ==> s.sock == Some(st.p);
    assert Holds(s.procs[st.p]) <==> s.lock == Some(st.p);
    assert s.sock == Some(st.p) ==> Owns(s.procs[st.p]) || s.procs[st.p].Leaving?;
    hide Locked, Orderly, Exclusive, Answered;
  }

  // What is about to be removed after a step is a dead process's.
  lemma RemovalAfter(s: State, st: Step)
    requires Orderly(s) && Exclusive(s) && Can(s, st) && Actor(st).Some? && !s.procs[st.p].Exited?
    ensures var t, p := Apply(s, st), st.p;
            p < |t.procs| && (t.procs[p].Removing? && t.sock.Some? ==> t.sock == s.sock && s.procs[s.sock.value].Exited?)
  {
    assert Holds(s.procs[st.p]) <==> s.lock == Some(st.p);
    if st.Dial? && s.procs[st.p].Dialing? { DialFindsOut(s, st.p); }
    assert s.procs[st.p].Removing? && s.sock.Some? ==> s.procs[s.sock.value].Exited?;
    hide Locked, Orderly, Exclusive, Answered;
  }

  // A step takes the path from nobody else who owns it, unless it is foreign.
  lemma SockTakenFromNobody(s: State, st: Step)
    requires Orderly(s) && Exclusive(s) && Can(s, st) && Actor(st).Some? && !s.procs[st.p].Exited?
    ensures Apply(s, st).sock == s.sock || Foreign(s, st) || forall q :: 0 <= q < |s.procs| && q != st.p ==> !Owns(s.procs[q])
  {
    assert s.procs[st.p].Removing? && s.sock.Some? ==> s.procs[s.sock.value].Exited?;
    if Owns(s.procs[st.p]) { OthersDoNotOwn(s, st.p); }
    if s.sock.None? || s.procs[s.sock.value].Exited? { NobodyOwns(s); }
    hide Locked, Orderly, Exclusive, Answered;
  }

  lemma OthersDoNotOwn(s: State, p: nat)
    requires Exclusive(s) && p < |s.procs| && Owns(s.procs[p])
    ensures forall q :: 0 <= q < |s.procs| && q != p ==> !Owns(s.procs[q])
  {
  }

  lemma NobodyOwns(s: State)
    requires Exclusive(s) && (s.sock.Some? && s.sock.value < |s.procs| ==> !Owns(s.procs[s.sock.value]))
    ensures forall q :: 0 <= q < |s.procs| ==> !Owns(s.procs[q])
  {
  }

  lemma LaunchKeepsOrder(s: State, t: State)
    requires Orderly(s) && Exclusive(s)
    requires t == s.(procs := s.procs + [Launched]) || t == s.(procs := s.procs + [Connecting])
    ensures Orderly(t) && Exclusive(t)
  {
  }

  lemma StepKeepsOrder(s: State, st: Step)
    requires Orderly(s) && Exclusive(s) && Can(s, st)
    ensures Orderly(Apply(s, st))
    ensures !Foreign(s, st) ==> Exclusive(Apply(s, st))
  {
    if Actor(st).None? {
      LaunchKeepsOrder(s, Apply(s, st));
    } else if s.procs[st.p].Exited? {
      ExitedStays(s, st);
    } else {
      StepMoves(s, st);
      SockAfter(s, st);
      RemovalAfter(s, st);
      SockTakenFromNobody(s, st);
      MoveKeepsOrder(s, Apply(s, st), st.p);
      if !Foreign(s, st) {
        MoveKeepsExclusive(s, Apply(s, st), st.p);
      }
    }
  }

  lemma ForeignBreaks(s: State, st: Step)
    requires Can(s, st) && Foreign(s, st)
    ensures !Exclusive(Apply(s, st))
  {
    var q :| 0 <= q < |s.procs| && Owns(s.procs[q]);
    assert Owns(Apply(s, st).procs[q]);
  }

  ghost predicate NeverForeign(steps: seq<Step>)
    requires IsTrace(steps)
  {
    forall k :: 0 <= k < |steps| ==> IsTrace(steps[..k]) && !Foreign(End(steps[..k]), steps[k])
  }

  lemma {:induction false} TraceIsOrderly(steps: seq<Step>)
    requires IsTrace(steps) && NeverForeign(steps)
    ensures Orderly(End(steps)) && Exclusive(End(steps))
  {
    hide Can, Apply, Orderly, Exclusive, Foreign;
    if steps != [] {
      var n := |steps| - 1;
      var pre := steps[..n];
      forall k | 0 <= k < n ensures IsTrace(pre[..k]) && !Foreign(End(pre[..k]), pre[k]) {
        assert pre[..k] == steps[..k];
      }
      TraceIsOrderly(pre);
      StepKeepsOrder(End(pre), steps[n]);
    } else {
      assert Orderly(START) && Exclusive(START) by { StartIsOrderly(); }
    }
  }

  lemma NeverForeignBefore(steps: seq<Step>, longer: seq<Step>)
    requires IsTrace(steps) && IsTrace(longer) && NeverForeign(longer) && steps <= longer
    ensures NeverForeign(steps)
  {
    hide Foreign, IsTrace, End;
    forall k | 0 <= k < |steps| ensures IsTrace(steps[..k]) && !Foreign(End(steps[..k]), steps[k]) {
      assert steps[..k] == longer[..k];
    }
  }

  lemma StartIsOrderly()
    ensures Orderly(START) && Exclusive(START)
  {
  }

  // In every run of any number of shims, daemons and crashes: at every moment each live
  // daemon past check-and-bind, of which there is then at most one, has the socket path,
  // exactly when no shutdown closes its listener after another daemon has bound.
  lemma ExclusiveIffNeverForeign(steps: seq<Step>)
    requires IsTrace(steps)
    ensures (forall k :: 0 <= k <= |steps| ==> IsTrace(steps[..k]) && Exclusive(End(steps[..k]))) <==> NeverForeign(steps)
  {
    hide Can, Apply, Orderly, Exclusive, Foreign;
    if NeverForeign(steps) {
      forall k: nat | k <= |steps| ensures IsTrace(steps[..k]) && Exclusive(End(steps[..k])) {
        PrefixIsTrace(steps, k);
        assert NeverForeign(steps[..k]) by {
          forall j | 0 <= j < k ensures IsTrace(steps[..k][..j]) && !Foreign(End(steps[..k][..j]), steps[..k][j]) {
            assert steps[..k][..j] == steps[..j];
          }
        }
        TraceIsOrderly(steps[..k]);
      }
    } else {
      var k :| 0 <= k < |steps| && !(IsTrace(steps[..k]) && !Foreign(End(steps[..k]), steps[k]));
      PrefixIsTrace(steps, k);
      ForeignBreaks(End(steps[..k]), steps[k]);
      assert 0 <= k + 1 <= |steps| && !Exclusive(End(steps[..k + 1]));
    }
  }

  // The daemon a shim is connected to, unless it is shutting down or gone.
  function ServedBy(s: State, p: nat): Option<nat>
    requires p < |s.procs|
  {
    match s.procs[p]
    case Connected(d) => if d < |s.procs| && Owns(s.procs[d]) then Some(d) else None
    case _ => None
  }

  // What exclusivity is good for.
  lemma OneDaemon(steps: seq<Step>, p: nat, q: nat)
    requires IsTrace(steps) && NeverForeign(steps)
    requires p < |End(steps).procs| && q < |End(steps).procs|
    ensures var s := End(steps);
            && (Owns(s.procs[p]) && Owns(s.procs[q]) ==> p == q)
            // all shims whose daemon is not shutting down are connected to the same one,
            && (ServedBy(s, p).Some? && ServedBy(s, q).Some? ==> ServedBy(s, p) == ServedBy(s, q))
            // an answered dial reached the owner,
            && (Answered(s) ==> Owns(s.procs[s.sock.value]))
            // and only a dead process's socket is ever removed as stale.
            && (s.procs[p].Removing? && s.sock.Some? ==> s.sock.value < |s.procs| && s.procs[s.sock.value].Exited?)
  {
    TraceIsOrderly(steps);
  }

  // ---- The pid file ----------------------------------------------------------------------

  // Every live daemon that has written the pid file is the one it names.
  predicate PidRight(s: State) {
    forall p :: 0 <= p < |s.procs| && WrotePid(s.procs[p]) ==> s.pid == Some(p)
  }

  // A daemon on its way out removes the pid file that another one has written by now.
  predicate LateRemoval(s: State, st: Step) {
    st.RemovePid? && exists q :: 0 <= q < |s.procs| && WrotePid(s.procs[q])
  }

  ghost predicate NeverLate(steps: seq<Step>)
    requires IsTrace(steps)
  {
    forall k :: 0 <= k < |steps| ==> IsTrace(steps[..k]) && !LateRemoval(End(steps[..k]), steps[k])
  }

  lemma MoveKeepsPid(s: State, t: State, p: nat)
    requires PidRight(s) && Moves(s, t, p)
    requires t.pid == s.pid || forall q :: 0 <= q < |s.procs| && q != p ==> !WrotePid(s.procs[q])
    requires WrotePid(t.procs[p]) ==> t.pid == Some(p)
    ensures PidRight(t)
  {
  }

  // Who touches the pid file.
  lemma PidMoves(s: State, st: Step)
    requires Exclusive(s) && PidRight(s) && Can(s, st) && Actor(st).Some? && !s.procs[st.p].Exited? && !LateRemoval(s, st)
    ensures var t, p := Apply(s, st), st.p;
            && p < |t.procs|
            && (t.pid == s.pid || forall q :: 0 <= q < |s.procs| && q != p ==> !WrotePid(s.procs[q]))
            && (WrotePid(t.procs[p]) ==> t.pid == Some(p))
  {
    assert WrotePid(s.procs[st.p]) ==> s.pid == Some(st.p);
    if Owns(s.procs[st.p]) { OthersDoNotOwn(s, st.p); }
    assert forall q :: 0 <= q < |s.procs| && WrotePid(s.procs[q]) ==> Owns(s.procs[q]);
    hide Exclusive, PidRight, Answered;
  }

  lemma StepKeepsPid(s: State, st: Step)
    requires Locked(s) && Exclusive(s) && PidRight(s) && Can(s, st) && !LateRemoval(s, st)
    ensures PidRight(Apply(s, st))
  {
    hide Locked, Exclusive, LateRemoval;
    if Actor(st).Some? && s.procs[st.p].Exited? {
      ExitedStays(s, st);
    } else if Actor(st).Some? {
      hide PidRight;
      StepMoves(s, st);
      PidMoves(s, st);
      MoveKeepsPid(s, Apply(s, st), st.p);
    }
  }

  lemma LateBreaks(s: State, st: Step)
    requires Can(s, st) && LateRemoval(s, st)
    ensures !PidRight(Apply(s, st))
  {
    var q :| 0 <= q < |s.procs| && WrotePid(s.procs[q]);
    assert WrotePid(Apply(s, st).procs[q]);
  }

  lemma {:induction false} TraceIsPidRight(steps: seq<Step>)
    requires IsTrace(steps) && NeverForeign(steps) && NeverLate(steps)
    ensures PidRight(End(steps))
  {
    hide Can, Apply, Orderly, Exclusive, Foreign, LateRemoval, PidRight;
    if steps != [] {
      var n := |steps| - 1;
      var pre := steps[..n];
      forall k | 0 <= k < n ensures IsTrace(pre[..k]) && !Foreign(End(pre[..k]), pre[k]) && !LateRemoval(End(pre[..k]), pre[k]) {
        assert pre[..k] == steps[..k];
      }
      TraceIsPidRight(pre);
      TraceIsOrderly(pre);
      TraceIsLocked(pre);
      StepKeepsPid(End(pre), steps[n]);
    } else {
      assert PidRight(START) by { StartIsPidRight(); }
    }
  }

  lemma StartIsPidRight()
    ensures PidRight(START)
  {
  }

  // While no close is foreign: at every moment the pid file names each live daemon that has
  // written it, exactly when no shutdown removes it after another daemon has written it.
  lemma PidRightIffNeverLate(steps: seq<Step>)
    requires IsTrace(steps) && NeverForeign(steps)
    ensures (forall k :: 0 <= k <= |steps| ==> IsTrace(steps[..k]) && PidRight(End(steps[..k]))) <==> NeverLate(steps)
  {
    hide Can, Apply, Foreign, LateRemoval, PidRight;
    if NeverLate(steps) {
      forall k: nat | k <= |steps| ensures IsTrace(steps[..k]) && PidRight(End(steps[..k])) {
        PrefixIsTrace(steps, k);
        forall j | 0 <= j < k
          ensures IsTrace(steps[..k][..j]) && !Foreign(End(steps[..k][..j]), steps[..k][j]) && !LateRemoval(End(steps[..k][..j]), steps[..k][j])
        {
          assert steps[..k][..j] == steps[..j];
        }
        TraceIsPidRight(steps[..k]);
      }
    } else {
      var k :| 0 <= k < |steps| && !(IsTrace(steps[..k]) && !LateRemoval(End(steps[..k]), steps[k]));
      PrefixIsTrace(steps, k);
      LateBreaks(End(steps[..k]), steps[k]);
      assert 0 <= k + 1 <= |steps| && !PidRight(End(steps[..k + 1]));
    }
  }

  // A daemon is up only after its socket listens, is secured, and has its pid file written.
  lemma {:induction false} UpMeansSetUp(steps: seq<Step>, p: nat)
    requires IsTrace(steps) && p < |End(steps).procs|
    ensures End(steps).procs[p] in {Listening, Secured, Ready, Serving} ==> Listen(p) in steps
    ensures End(steps).procs[p] in {Secured, Ready, Serving} ==> Chmod(p) in steps
    ensures End(steps).procs[p] in {Ready, Serving} ==> WritePid(p) in steps
  {
    hide Can, Apply;
    if steps != [] {
      var n := |steps| - 1;
      var s := End(steps[..n]);
      assert steps == steps[..n] + [steps[n]];
      PhaseAfter(s, steps[n], p);
      if p < |s.procs| { UpMeansSetUp(steps[..n], p); }
    }
  }

  lemma PhaseAfter(s: State, st: Step, p: nat)
    requires Can(s, st) && p < |Apply(s, st).procs|
    ensures var ph := Apply(s, st).procs[p];
            !(p < |s.procs| && s.procs[p] == ph) ==>
            match ph
            case Listening => st == Listen(p)
            case Secured => st == Chmod(p)
            case Ready => st == WritePid(p)
            case _ => true
    ensures var ph := Apply(s, st).procs[p];
            ph in {Listening, Secured, Ready, Serving} && !(p < |s.procs| && s.procs[p] == ph) ==>
              p < |s.procs| && s.procs[p] == match ph case Listening => Bound case Secured => Listening case Ready => Secured case _ => Ready
  {
  }

  // ---- Shutdowns that do not overlap a startup ----------------------------------------

  // A daemon binds while another one is still closing down.
  predicate Overlaps(s: State, st: Step) {
    st.Bind? && exists d :: 0 <= d < |s.procs| && ClosingDown(s.procs[d])
  }

  predicate Calm(s: State) {
    && (forall d, q :: 0 <= d < |s.procs| && 0 <= q < |s.procs| && ClosingDown(s.procs[d]) ==> !Owns(s.procs[q]))
    && PidRight(s)
  }

  predicate Settled(s: State) { Orderly(s) && Exclusive(s) && Calm(s) }

  predicate Alone(s: State, p: nat) {
    forall q :: 0 <= q < |s.procs| && q != p ==> !Owns(s.procs[q])
  }

  lemma MoveKeepsCalm(s: State, t: State, p: nat)
    requires Calm(s) && Moves(s, t, p)
    requires ClosingDown(t.procs[p]) ==> !Owns(t.procs[p]) && Alone(s, p)
    requires Owns(t.procs[p]) && !Owns(s.procs[p]) ==> forall d :: 0 <= d < |s.procs| && d != p ==> !ClosingDown(s.procs[d])
    requires t.pid == s.pid || Alone(s, p)
    requires WrotePid(t.procs[p]) ==> t.pid == Some(p)
    ensures Calm(t)
  {
    forall q | 0 <= q < |s.procs| && q != p && WrotePid(s.procs[q]) ensures t.pid == Some(q) {
      assert Owns(s.procs[q]);
    }
  }

  lemma ClosingAfter(s: State, st: Step)
    requires Settled(s) && Can(s, st) && Actor(st).Some? && !s.procs[st.p].Exited?
    ensures var t, p := Apply(s, st), st.p;
            p < |t.procs| && (ClosingDown(t.procs[p]) ==> !Owns(t.procs[p]) && Alone(s, p))
  {
    if Owns(s.procs[st.p]) || ClosingDown(s.procs[st.p]) { OwnerIsAlone(s, st.p); }
    hide Settled, Alone;
  }

  // Only a bind makes an owner.
  lemma OwningAfter(s: State, st: Step)
    requires Can(s, st) && Actor(st).Some? && !s.procs[st.p].Exited? && !Owns(s.procs[st.p]) && Owns(Apply(s, st).procs[st.p])
    ensures st.Bind?
  {
  }

  lemma PidAfter(s: State, st: Step)
    requires Settled(s) && Can(s, st) && Actor(st).Some? && !s.procs[st.p].Exited?
    ensures var t, p := Apply(s, st), st.p;
            && p < |t.procs|
            && (t.pid == s.pid || Alone(s, p))
            && (WrotePid(t.procs[p]) ==> t.pid == Some(p))
  {
    assert WrotePid(s.procs[st.p]) ==> s.pid == Some(st.p);
    if Owns(s.procs[st.p]) || ClosingDown(s.procs[st.p]) { OwnerIsAlone(s, st.p); }
    hide Settled, Alone;
  }

  lemma OwnerIsAlone(s: State, p: nat)
    requires Settled(s) && p < |s.procs| && (Owns(s.procs[p]) || ClosingDown(s.procs[p]))
    ensures Alone(s, p)
  {
  }

  lemma StepKeepsSettled(s: State, st: Step)
    requires Settled(s) && Can(s, st) && !Overlaps(s, st)
    ensures !Foreign(s, st) && !LateRemoval(s, st) && Settled(Apply(s, st))
  {
    StepKeepsOrder(s, st);
    if st.RemovePid? { OwnerIsAlone(s, st.p); }
    hide Locked, Orderly, Exclusive;
    if Actor(st).None? {
      LaunchKeepsCalm(s, Apply(s, st));
    } else if s.procs[st.p].Exited? {
      ExitedStays(s, st);
    } else {
      StepMoves(s, st);
      ClosingAfter(s, st);
      PidAfter(s, st);
      if Owns(Apply(s, st).procs[st.p]) && !Owns(s.procs[st.p]) { OwningAfter(s, st); }
      hide Apply;
      MoveKeepsCalm(s, Apply(s, st), st.p);
    }
  }

  lemma LaunchKeepsCalm(s: State, t: State)
    requires Calm(s)
    requires t == s.(procs := s.procs + [Launched]) || t == s.(procs := s.procs + [Connecting])
    ensures Calm(t)
  {
  }

  ghost predicate NeverOverlaps(steps: seq<Step>)
    requires IsTrace(steps)
  {
    forall k :: 0 <= k < |steps| ==> IsTrace(steps[..k]) && !Overlaps(End(steps[..k]), steps[k])
  }

  // Without such an overlap no close is ever foreign, and both the socket path and the pid
  // file belong to the one daemon that is up.
  lemma {:induction false} NoOverlapNoHarm(steps: seq<Step>)
    requires IsTrace(steps) && NeverOverlaps(steps)
    ensures NeverForeign(steps) && NeverLate(steps) && Settled(End(steps))
  {
    hide Can, Apply, Settled, Foreign, LateRemoval, Overlaps;
    if steps != [] {
      var n := |steps| - 1;
      var pre := steps[..n];
      forall k | 0 <= k < n ensures IsTrace(pre[..k]) && !Overlaps(End(pre[..k]), pre[k]) {
        assert pre[..k] == steps[..k];
      }
      NoOverlapNoHarm(pre);
      StepKeepsSettled(End(pre), steps[n]);
      forall k | 0 <= k < |steps|
        ensures IsTrace(steps[..k]) && !Foreign(End(steps[..k]), steps[k]) && !LateRemoval(End(steps[..k]), steps[k])
      {
        if k < n { assert pre[..k] == steps[..k] && pre[k] == steps[k]; }
      }
    } else {
      assert Settled(START) by { StartIsSettled(); }
    }
  }

  lemma StartIsSettled()
    ensures Settled(START)
  {
  }

  // ---- Nobody sits on the flock -------------------------------------------------------

  // How many more of its own steps a holder can take before it releases.
  function Rank(ph: Phase): nat {
    match ph
    case Checking => 8
    case Dialing => 7
    case Removing => 6
    case Binding => 5
    case Bound => 4
    case Listening => 3
    case Secured => 2
    case Rechecking => 2
    case Aborting => 1
    case Forking => 1
    case _ => 0
  }

  // The holder always has a step to take, other than crashing.
  lemma HolderCanMove(steps: seq<Step>, p: nat)
    requires IsTrace(steps) && End(steps).lock == Some(p)
    ensures p < |End(steps).procs| && exists next :: Actor(next) == Some(p) && !next.Crash? && Can(End(steps), next)
  {
    var s := End(steps);
    TraceIsLocked(steps);
    assert Holds(s.procs[p]);
    var next := match s.procs[p]
      case Checking => Stat(p)
      case Dialing | Rechecking => Dial(p)
      case Removing => Remove(p)
      case Binding => BindFails(p)
      case Bound => Listen(p)
      case Listening => Chmod(p)
      case Secured => WritePid(p)
      case Aborting => CloseListener(p)
      case Forking => Fork(p)
      case _ => Release(p);
    hide Locked;
    assert Actor(next) == Some(p) && Can(s, next);
  }

  // Each step it takes either releases the flock or brings the release closer.
  lemma HolderMovesOn(s: State, p: nat, st: Step)
    requires p < |s.procs| && Holds(s.procs[p]) && s.lock == Some(p) && Can(s, st) && Actor(st) == Some(p)
    ensures var t := Apply(s, st); p < |t.procs| && (t.lock.None? || (t.lock == Some(p) && Rank(t.procs[p]) < Rank(s.procs[p])))
  {
  }

  // Nobody else can disturb it, nor take its flock or give it one.
  lemma OthersMove(s: State, p: nat, st: Step)
    requires Locked(s) && p < |s.procs| && Can(s, st) && Actor(st) != Some(p)
    ensures var t := Apply(s, st);
            && p < |t.procs| && t.procs[p] == s.procs[p]
            && (t.lock == Some(p) <==> s.lock == Some(p))
  {
    if Actor(st).Some? {
      assert Holds(s.procs[st.p]) <==> s.lock == Some(st.p);
    }
    hide Locked;
  }

  function StepsBy(steps: seq<Step>, p: nat): nat {
    if steps == [] then 0
    else StepsBy(steps[..|steps| - 1], p) + if Actor(steps[|steps| - 1]) == Some(p) then 1 else 0
  }

  ghost predicate HeldBy(steps: seq<Step>, from: nat, p: nat)
    requires IsTrace(steps)
  {
    forall k :: from <= k <= |steps| ==> IsTrace(steps[..k]) && End(steps[..k]).lock == Some(p)
  }

  lemma OneStepLess(steps: seq<Step>, from: nat, p: nat)
    requires IsTrace(steps) && HeldBy(steps, from, p) && from < |steps|
    ensures var pre := steps[..|steps| - 1];
            && IsTrace(pre) && HeldBy(pre, from, p)
            && End(pre).lock == End(steps).lock == Some(p)
            && Can(End(pre), steps[|steps| - 1]) && End(steps) == Apply(End(pre), steps[|steps| - 1])
  {
    hide Can, Apply;
    var pre := steps[..|steps| - 1];
    forall k | 0 <= k <= |pre| ensures pre[..k] == steps[..k] {}
    assert steps[..|steps|] == steps;
  }

  // Whatever else happens, a process that holds the flock throughout takes at most eight
  // steps meanwhile.
  lemma {:induction false} FlockIsHeldBriefly(steps: seq<Step>, from: nat, p: nat)
    requires IsTrace(steps) && from <= |steps| && HeldBy(steps, from, p)
    ensures p < |End(steps).procs|
    ensures StepsBy(steps[from..], p) + Rank(End(steps).procs[p]) <= 8
    decreases |steps|
  {
    hide Can, Apply, Rank, HeldBy;
    TraceIsLocked(steps);
    assert End(steps).lock == Some(p) by { HeldAtEnd(steps, from, p); }
    RankBound(End(steps).procs[p]);
    if from < |steps| {
      var n := |steps| - 1;
      OneStepLess(steps, from, p);
      FlockIsHeldBriefly(steps[..n], from, p);
      TraceIsLocked(steps[..n]);
      assert steps[from..][..n - from] == steps[..n][from..];
      if Actor(steps[n]) == Some(p) { HolderMovesOn(End(steps[..n]), p, steps[n]); } else { OthersMove(End(steps[..n]), p, steps[n]); }
    }
  }

  lemma HeldAtEnd(steps: seq<Step>, from: nat, p: nat)
    requires IsTrace(steps) && from <= |steps| && HeldBy(steps, from, p)
    ensures End(steps).lock == Some(p)
  {
    assert steps[..|steps|] == steps;
    hide IsTrace, End;
  }

  lemma RankBound(ph: Phase)
    ensures Rank(ph) <= 8
  {
  }

  // ---- The code of a starting daemon ----------------------------------------------------

  // How startDaemon comes back; it may also still wait for the flock.
  datatype Outcome = Up | AlreadyRunning | Failed | Blocked

  ghost predicate OnlyOthers(steps: seq<Step>, p: nat) { forall st :: st in steps ==> Actor(st) != Some(p) }

  ghost predicate AnsweredAt(steps: seq<Step>, k: nat) {
    k <= |steps| && IsTrace(steps[..k]) && Answered(End(steps[..k]))
  }

  lemma AnsweredStays(steps: seq<Step>, longer: seq<Step>, k: nat)
    requires AnsweredAt(steps, k) && steps <= longer
    ensures AnsweredAt(longer, k)
  {
    assert longer[..k] == steps[..k];
  }

  // The machine that all processes run on.
  class Host {
    var st: State
    ghost var trace: seq<Step>

    ghost predicate Valid()
      reads this
    {
      IsTrace(trace) && st == End(trace)
    }

    constructor ()
      ensures Valid() && trace == []
    {
      st, trace := START, [];
    }

    // One system call.
    method Do(step: Step)
      requires Valid() && Can(st, step)
      modifies this
      ensures Valid() && trace == old(trace) + [step] && st == Apply(old(st), step)
    {
      hide Can, Apply;
      TraceSnoc(trace, step);
      st := Apply(st, step);
      trace := trace + [step];
    }

    // Between two calls of process p any number of other processes may run.
    method Others(p: nat)
      requires Valid() && p < |st.procs|
      modifies this
      ensures Valid() && old(trace) <= trace && OnlyOthers(trace[|old(trace)|..], p)
      ensures p < |st.procs| && st.procs[p] == old(st.procs[p])
      ensures st.lock == Some(p) <==> old(st.lock) == Some(p)
    {
      hide IsTrace, End, Can, Apply, Locked;
      var steps: int := *;
      while steps > 0
        invariant Valid() && old(trace) <= trace && OnlyOthers(trace[|old(trace)|..], p)
        invariant p < |st.procs| && st.procs[p] == old(st.procs[p])
        invariant st.lock == Some(p) <==> old(st.lock) == Some(p)
      {
        var step: Step := *;
        if Can(st, step) && Actor(step) != Some(p) {
          TraceIsLocked(trace);
          OthersMove(st, p, step);
          Do(step);
        }
        steps := steps - 1;
      }
    }

    // startDaemon: whatever the other processes do meanwhile, a daemon comes up only with
    // the path its own, unless a close was foreign, with the pid file its own too, unless
    // a removal came late, and gives way only to one that answered its dial.
    method StartDaemon(p: nat) returns (r: Outcome)
      requires Valid() && p < |st.procs| && st.procs[p].Launched?
      modifies this
      ensures Valid() && old(trace) <= trace && p < |st.procs|
      ensures match r
              case Up => st.procs[p].Serving?
              case Blocked => st.procs[p].Launched?
              case _ => st.procs[p].Exited?
      ensures r.AlreadyRunning? ==> exists k :: |old(trace)| <= k <= |trace| && AnsweredAt(trace, k)
      ensures st.lock != Some(p)
      ensures r.Up? && NeverForeign(trace) ==> st.sock == Some(p) && forall q :: 0 <= q < |st.procs| && Owns(st.procs[q]) ==> q == p
      ensures r.Up? && NeverForeign(trace) && NeverLate(trace) ==> st.pid == Some(p)
    {
      hide IsTrace, End, NeverForeign, NeverLate, OnlyOthers;
      Others(p);
      if st.lock.Some? {
        TraceIsLocked(trace);
        return Blocked;
      }
      var failed: bool := *;
      if failed {
        Do(LockFails(p));
        return Failed;
      }
      Do(Lock(p));
      var alive := RecoverStaleSocket(p);
      if alive {
        ghost var so := trace;
        ghost var k :| |old(trace)| <= k <= |so| && AnsweredAt(so, k);
        Others(p);
        Do(Release(p));
        AnsweredStays(so, trace, k);
        return AlreadyRunning;
      }
      var ok := ComeUp(p);
      return if ok then Up else Failed;
    }

    // The rest of startDaemon, up to the release of the flock.
    method ComeUp(p: nat) returns (up: bool)
      requires Valid() && p < |st.procs| && st.procs[p].Binding?
      modifies this
      ensures Valid() && old(trace) <= trace && p < |st.procs| && st.lock != Some(p)
      ensures st.procs[p] == if up then Serving else Exited
      ensures up && NeverForeign(trace) ==> st.sock == Some(p) && forall q :: 0 <= q < |st.procs| && Owns(st.procs[q]) ==> q == p
      ensures up && NeverForeign(trace) && NeverLate(trace) ==> st.pid == Some(p)
    {
      hide IsTrace, End, NeverForeign, NeverLate, OnlyOthers;
      up := Listen(p);
      if up {
        up := WritePid(p);
      }
      Others(p);
      Do(Release(p));
      if NeverForeign(trace) {
        TraceIsOrderly(trace);
        if NeverLate(trace) { TraceIsPidRight(trace); }
        hide Locked, Orderly;
      }
    }

    method RecoverStaleSocket(p: nat) returns (alive: bool)
      requires Valid() && p < |st.procs| && st.procs[p].Checking?
      modifies this
      ensures Valid() && old(trace) <= trace && p < |st.procs|
      ensures st.procs[p] == if alive then Leaving else Binding
      ensures !alive ==> st.sock.None? || trace[|trace| - 1] == RemoveFails(p)
      ensures !alive && NeverForeign(trace) && st.sock.Some? ==> st.sock.value < |st.procs| && st.procs[st.sock.value].Exited?
      ensures alive ==> exists k :: |old(trace)| <= k <= |trace| && AnsweredAt(trace, k)
    {
      hide IsTrace, End, NeverForeign, OnlyOthers;
      Others(p);
      var found := st.sock.Some?;
      Do(Stat(p));
      if !found {
        return false;
      }
      Others(p);
      ghost var before := trace;
      Do(Dial(p));
      if st.procs[p].Leaving? {
        assert trace[..|before|] == before;
        assert AnsweredAt(trace, |before|);
        return true;
      }
      Others(p);
      var removed: bool := *;
      ghost var was := trace;
      Do(if removed then Remove(p) else RemoveFails(p));
      if NeverForeign(trace) {
        NeverForeignBefore(was, trace);
        TraceIsOrderly(was);
      }
      return false;
    }

    // listen: it ends with the socket at the path secured, or with no listener left, and the
    // file left behind only if it could not be bound or listened on.
    method Listen(p: nat) returns (ok: bool)
      requires Valid() && p < |st.procs| && st.procs[p].Binding?
      modifies this
      ensures Valid() && old(trace) <= trace && p < |st.procs|
      ensures st.procs[p] == if ok then Secured else Leaving
      ensures ok && NeverForeign(trace) ==> st.sock == Some(p)
      ensures !ok ==> st.sock.None? || trace[|trace| - 1] in {BindFails(p), ListenFails(p)}
    {
      hide IsTrace, End, NeverForeign, OnlyOthers;
      ok := BindAndListen(p);
      if !ok {
        return false;
      }
      Others(p);
      var fails: bool := *;
      if fails {
        Do(SetupFails(p, false));
        Others(p);
        Do(CloseListener(p));
        return false;
      }
      Do(Chmod(p));
      if NeverForeign(trace) { TraceIsOrderly(trace); }
      return true;
    }

    // net.Listen
    method BindAndListen(p: nat) returns (ok: bool)
      requires Valid() && p < |st.procs| && st.procs[p].Binding?
      modifies this
      ensures Valid() && old(trace) <= trace && p < |st.procs|
      ensures st.procs[p] == if ok then Listening else Leaving
      ensures !ok ==> trace[|trace| - 1] in {BindFails(p), ListenFails(p)}
    {
      hide IsTrace, End, OnlyOthers;
      Others(p);
      var fails: bool := *;
      if fails || st.sock.Some? {
        Do(BindFails(p));
        return false;
      }
      Do(Bind(p));
      Others(p);
      fails := *;
      if fails {
        Do(ListenFails(p));
        return false;
      }
      Do(Step.Listen(p));
      return true;
    }

    method WritePid(p: nat) returns (ok: bool)
      requires Valid() && p < |st.procs| && st.procs[p].Secured?
      modifies this
      ensures Valid() && old(trace) <= trace && p < |st.procs|
      ensures st.procs[p] == if ok then Ready else Leaving
      ensures ok ==> st.pid == Some(p)
    {
      hide IsTrace, End, OnlyOthers;
      Others(p);
      var fails: bool := *;
      if fails {
        var truncated: bool := *;
        Do(SetupFails(p, truncated));
        Others(p);
        Do(CloseListener(p));
        return false;
      }
      Do(Step.WritePid(p));
      return true;
    }

    // ensureDaemon, polling at most `rounds` times before the spawn timeout: it forks a
    // daemon only after two dials went unanswered, and connects to the owner of the path.
    method EnsureDaemon(p: nat, rounds: nat) returns (r: Outcome, ghost to: nat)
      requires Valid() && p < |st.procs| && st.procs[p].Connecting?
      modifies this
      ensures Valid() && old(trace) <= trace && p < |st.procs|
      ensures match r
              case Up => st.procs[p] == Connected(to) && Answered(st) && st.sock == Some(to)
              case Blocked => st.procs[p].Waiting?
              case _ => st.procs[p].Exited?
      ensures r.Up? && NeverForeign(trace) ==> Owns(st.procs[to])
    {
      hide IsTrace, End, NeverForeign, OnlyOthers;
      Others(p);
      Do(Dial(p));
      if st.procs[p].Waiting? {
        r := SpawnUnderLock(p);
        if r != Up {
          return r, 0;
        }
        var ready := DialUntilReady(p, rounds);
        if !ready {
          return Failed, 0;
        }
      }
      if NeverForeign(trace) { TraceIsOrderly(trace); }
      return Up, st.procs[p].to;
    }

    // dialUntilReady
    method DialUntilReady(p: nat, rounds: nat) returns (ready: bool)
      requires Valid() && p < |st.procs| && st.procs[p].Polling?
      modifies this
      ensures Valid() && old(trace) <= trace && p < |st.procs|
      ensures if ready then st.procs[p].Connected? && Answered(st) && st.sock == Some(st.procs[p].to) else st.procs[p].Exited?
    {
      hide IsTrace, End, OnlyOthers;
      for i := 0 to rounds
        invariant Valid() && old(trace) <= trace && p < |st.procs| && st.procs[p].Polling?
      {
        Others(p);
        Do(Dial(p));
        if st.procs[p].Connected? {
          return true;
        }
      }
      Others(p);
      Do(GiveUp(p));
      return false;
    }

    method SpawnUnderLock(p: nat) returns (r: Outcome)
      requires Valid() && p < |st.procs| && st.procs[p].Waiting?
      modifies this
      ensures Valid() && old(trace) <= trace && p < |st.procs| && !r.AlreadyRunning?
      ensures match r
              case Up => st.procs[p].Polling?
              case Blocked => st.procs[p].Waiting?
              case _ => st.procs[p].Exited?
      ensures st.lock != Some(p)
    {
      hide IsTrace, End, OnlyOthers;
      Others(p);
      if st.lock.Some? {
        TraceIsLocked(trace);
        return Blocked;
      }
      var fails: bool := *;
      if fails {
        Do(LockFails(p));
        return Failed;
      }
      Do(Lock(p));
      Others(p);
      Do(Dial(p));
      r := ForkIfAlone(p);
    }

    // The rest of spawnUnderLock: somebody else's daemon may have come up meanwhile.
    method ForkIfAlone(p: nat) returns (r: Outcome)
      requires Valid() && p < |st.procs| && (st.procs[p].Forking? || st.procs[p].Releasing?)
      modifies this
      ensures Valid() && old(trace) <= trace && p < |st.procs|
      ensures if r.Up? then st.procs[p].Polling? else r.Failed? && st.procs[p].Exited?
      ensures st.lock != Some(p)
    {
      hide IsTrace, End, OnlyOthers;
      r := Up;
      Others(p);
      if st.procs[p].Forking? {
        var fails: bool := *;
        r := if fails then Failed else Up;
        Do(if fails then ForkFails(p) else Fork(p));
        Others(p);
      }
      Do(Release(p));
    }
  }

  // ---- What an overlap can do ----------------------------------------------------------

  function Setup(p: nat): seq<Step> {
    [Launch, Lock(p), Stat(p), Bind(p), Listen(p), Chmod(p), WritePid(p)]
  }

  function Boot(p: nat): seq<Step> { Setup(p) + [Release(p)] }

  lemma SetupRuns(steps: seq<Step>, s: State)
    requires IsTrace(steps) && End(steps) == s && s.lock.None? && s.sock.None?
    ensures var p := |s.procs|;
            && IsTrace(steps + Setup(p))
            && End(steps + Setup(p)) == State(s.procs + [Ready], Some(p), Some(p), Some(p))
  {
    hide IsTrace, End;
    var p := |s.procs|;
    var t := steps;
    TraceSnoc(t, Launch);
    t := t + [Launch];
    TraceSnoc(t, Lock(p));
    t := t + [Lock(p)];
    TraceSnoc(t, Stat(p));
    t := t + [Stat(p)];
    TraceSnoc(t, Bind(p));
    t := t + [Bind(p)];
    TraceSnoc(t, Listen(p));
    t := t + [Listen(p)];
    TraceSnoc(t, Chmod(p));
    t := t + [Chmod(p)];
    TraceSnoc(t, WritePid(p));
    t := t + [WritePid(p)];
    assert t == steps + Setup(p);
    assert End(t).procs == s.procs + [Ready];
  }

  lemma BootRuns(steps: seq<Step>, s: State)
    requires IsTrace(steps) && End(steps) == s && s.lock.None? && s.sock.None?
    ensures var p := |s.procs|;
            && IsTrace(steps + Boot(p))
            && End(steps + Boot(p)) == State(s.procs + [Serving], None, Some(p), Some(p))
  {
    hide IsTrace, End, Setup;
    var p := |s.procs|;
    SetupRuns(steps, s);
    TraceSnoc(steps + Setup(p), Release(p));
    assert steps + Boot(p) == steps + Setup(p) + [Release(p)];
    assert End(steps + Boot(p)).procs == s.procs + [Serving];
  }

  lemma EmptyTrace()
    ensures IsTrace([]) && End([]) == START
  {
  }

  // A serving daemon is asked to stop and removes its socket file.
  lemma StopRuns(steps: seq<Step>, s: State, p: nat)
    requires IsTrace(steps) && End(steps) == s && p < |s.procs| && s.procs[p].Serving?
    ensures var more := [Stop(p), Unlink(p)];
            IsTrace(steps + more) && End(steps + more) == State(s.procs[p := Unlinked], s.lock, None, s.pid)
  {
    hide IsTrace, End;
    TraceSnoc(steps, Stop(p));
    TraceSnoc(steps + [Stop(p)], Unlink(p));
    assert steps + [Stop(p)] + [Unlink(p)] == steps + [Stop(p), Unlink(p)];
    assert End(steps + [Stop(p), Unlink(p)]).procs == s.procs[p := Unlinked];
  }

  // Daemon 0 is asked to stop and removes its files; daemon 1 starts; daemon 0 closes its
  // listener, which unlinks daemon 1's socket file; daemon 2 finds no file and starts.
  lemma OverlapCanLeaveTwoDaemons()
    ensures exists steps :: IsTrace(steps) && End(steps).procs == [Exited, Serving, Serving]
  {
    EmptyTrace();
    hide IsTrace, End, Boot;
    BootRuns([], START);
    var a := [] + Boot(0);
    StopRuns(a, End(a), 0);
    var b := a + [Stop(0), Unlink(0)];
    TraceSnoc(b, RemovePid(0));
    var c := b + [RemovePid(0)];
    BootRuns(c, End(c));
    var d := c + Boot(1);
    TraceSnoc(d, CloseListener(0));
    var e := d + [CloseListener(0)];
    assert Apply(End(d), CloseListener(0)) == State([Exited, Serving], None, None, Some(1));
    BootRuns(e, End(e));
    assert IsTrace(e + Boot(2)) && End(e + Boot(2)).procs == [Exited, Serving, Serving];
  }

  // Daemon 0 is asked to stop and removes its socket file; daemon 1 starts and writes its
  // pid; only then does daemon 0 remove the pid file. No close was foreign, daemon 1 has the
  // path, and yet the pid file is gone.
  lemma PidFileCanBeLost()
    ensures exists steps :: IsTrace(steps) && NeverForeign(steps) && End(steps) == State([PidGone, Serving], None, Some(1), None)
  {
    EmptyTrace();
    hide IsTrace, End, Boot, Setup;
    BootRuns([], START);
    var a := [] + Boot(0);
    StopRuns(a, End(a), 0);
    var b := a + [Stop(0), Unlink(0)];
    SetupRuns(b, End(b));
    var c := b + Setup(1);
    assert End(c).procs == [Unlinked, Ready];
    LateRemovalRuns(c);
    assert NeverForeign(c + [RemovePid(0), Release(1)]) by {
      SetupClosesNothing(0);
      SetupClosesNothing(1);
      hide Can, Apply;
      NobodyCloses(c + [RemovePid(0), Release(1)]);
    }
  }

  lemma LateRemovalRuns(steps: seq<Step>)
    requires IsTrace(steps) && End(steps) == State([Unlinked, Ready], Some(1), Some(1), Some(1))
    ensures var t := steps + [RemovePid(0), Release(1)]; IsTrace(t) && End(t) == State([PidGone, Serving], None, Some(1), None)
  {
    hide IsTrace, End;
    TraceSnoc(steps, RemovePid(0));
    TraceSnoc(steps + [RemovePid(0)], Release(1));
    assert steps + [RemovePid(0)] + [Release(1)] == steps + [RemovePid(0), Release(1)];
    assert End(steps + [RemovePid(0), Release(1)]).procs == [PidGone, Serving];
  }

  lemma NobodyCloses(steps: seq<Step>)
    requires IsTrace(steps) && forall st :: st in steps ==> !st.CloseListener?
    ensures NeverForeign(steps)
  {
    forall k | 0 <= k < |steps| ensures IsTrace(steps[..k]) && !Foreign(End(steps[..k]), steps[k]) {
      PrefixIsTrace(steps, k);
      assert steps[k] in steps;
    }
  }

  lemma SetupClosesNothing(p: nat)
    ensures forall st :: st in Setup(p) ==> !st.CloseListener?
    ensures Boot(p) == Setup(p) + [Release(p)]
  {
  }
}
