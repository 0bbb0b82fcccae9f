# claude-bridge, verified

`claude-bridge` lets the Claude Code sessions of one machine talk to each other. A daemon
keeps the sessions, their bounded inboxes, their broadcast limits and their push
subscriptions in one goroutine, the broker's run loop; a shim per session relays calls to
it over length-prefixed frames and turns pushed events into frames for its host.

The project models that system in three layers and proves what the layers promise.

- The loop-private state, twice. `BrokerModel` is the state and its commands on values,
  with clock readings, fresh ids and map iteration orders as part of a command. The classes
  `State`, `TokenBucket`, `LivelockTracker`, `Inbox`, `Mailroom` and `Pusher` are the code
  that updates it in place, each proved against the value it stands for: an eager token
  bucket, the full message history of a session pair, a sequence of messages, a command of
  the model. `Observed` tells each command's effect in the fields that callers and subscribers
  see. Over whole runs of commands: `Conservation` (every accepted message has one
  fate), `Suffix` (inboxes are contiguous, ages are bounded), `RateLimit`, `Independence`
  (what does not influence what), `Suppression` (when the breaker acts) and `Confluence` (map
  iteration order).
- The concurrent shell. `Shells` has callers, the command channel, the loop, the cleanup
  tick, the pushers and `Close` as one step system; `Pushers` is the worker of one
  subscription with the account of every event it was ever handed; `Deliveries` says which
  events are lost on the way to a subscriber, and when a message arrives by push and by poll.
- The edges: `Frames` (the wire codec), `Connections` (sessions bound to connections),
  `Startup` (flock, socket path and pid file under crashes) and `Relay` (shims, push frames
  and the permission relay).

`Types`, `Ledgers`, `Quotients`, `Effects` and `Invariants` carry shared definitions, the
net effect of the order-dependent loops, and what every command keeps.

Assumptions: the clock readings of the loop never go back; a new session id is unused, not
empty and, where pair keys matter, free of NUL; the configuration has been through its
defaults; every ready case of a `select` and every map iteration order may be taken.

Where the code and its documentation disagree the model follows the code, with a lemma for
each: a call made after `Close` may hang (`Shells.CallAfterCloseCanHang`), `max_chain: 0`
does not disable the breaker (`Suppression.BreakerActsIffEnabled`), a pushed message is
delivered again by a poll (`Independence.DeliveredTwice`), a poll may return expired messages
(`Suffix.PollCanReturnExpired`), a session whose registration reply is lost stays
(`Connections.UnconfirmedSessionStays`), and a shutdown that overlaps a startup can leave two
daemons or one without its pid file (`Startup.OverlapCanLeaveTwoDaemons`,
`Startup.PidFileCanBeLost`). `Send` does not check its sender
(`Independence.SendIgnoresItsSender`), so a message may come from a session that is not
registered.

`dafny verify dfyconfig.toml` checks the project.

## Model
| member | source | states |
|---|---|---|
| Types.Config.WithDefaults | internal/broker/broker.go:69-96 | every limit that is positive is kept and every other one becomes its default, here as a number; enabled stays as given; a resolved configuration is left alone |
| Suppression.BreakerActsIffEnabled | internal/broker/broker.go:89-91 | for every configuration, whatever its max_chain: some run has the breaker hold back the push of an ordinary message to a subscribed session, exactly if the breaker is enabled |
| Suppression.SuppressesIffEnabled | internal/broker/livelock.go:53-74 | for every configuration and every message some history suppresses it, exactly if the breaker is enabled |
| Suppression.HistoryIsWhatWasSaid | internal/broker/livelock.go:53-102 | over any run a pair's history is exactly the accepted ordinary messages between the two, in either direction, with the breaker's clock readings |
| Suppression.HeldBackIffLivelock | internal/broker/broker.go:345-351 | over any run an ordinary message to a registered session is held back exactly if the breaker is enabled and that conversation, the message included, is a livelock |
| Shells.AnsweredAsSequential | internal/broker/broker.go:166-208 | serialisability: in every interleaving of callers, ticks and pushers, each answered call got the reply of the sequential broker after the commands before it in queue order, and each of those is what its own call, answered or not, asked for |
| Shells.RunIsSequential | internal/broker/broker.go:166-182 | pushers and subscribers running beside the loop never influence what the commands do to anything but pusher contents |
| Shells.CommandAlike | internal/broker/broker.go:166-182 | a command does the same, and replies the same, whatever the pushers hold |
| Shells.ExecutionRespectsRealTime | internal/broker/broker.go:189-208 | calls execute in channel order, each at most once and as it was asked for, and a call that had come back (a touch: been posted) before another was made executes first |
| Shells.CommandFitsOne | internal/broker/broker.go:189-208 | a command belongs to one request only: no argument of a call is lost on its way to the loop |
| Shells.RefusedHadNoEffect | internal/broker/broker.go:189-208 | a call answered ErrClosed was never executed and got no reply |
| Shells.ComesBackUnlessStranded | internal/broker/broker.go:175-207 | a pending call can still come back exactly when the loop has not exited with its command left in the channel |
| Shells.StrandingNeedsRoom | internal/broker/broker.go:175-207 | a caller whose command is not in the channel yet is safe from being left there exactly when the loop has exited with the channel full |
| Shells.CallAfterCloseCanHang | internal/broker/broker.go:175-207 | a concrete run in which a call made after Close never comes back, against the architecture notes |
| Shells.StepKeepsSerial | internal/broker/broker.go:166-208 | every step of every goroutine keeps the FIFO, real-time, reply and run invariants behind the three theorems above |
| Shells.PushersAreSoundThroughout | internal/broker/pusher.go:10-74 | in every reachable state, before and after Close: no send on or second close of out, at most one stop signal per pusher and none lost, signalled exactly when out of the map (or at exit), deliveries in hand-over order |
| Shells.EveryEventIsAccountedFor | internal/broker/pusher.go:26-65 | in every reachable state each event handed to a pusher is in the mailbox, in hand, in out, read, or lost in one of two places, and the counts add up; at least a mailbox-full got in before one lost at the mailbox, and at least an out-full was sent before one lost at out without waiting |
| Deliveries.LossNeedsFullChannel | internal/broker/pusher.go:39-65 | in every reachable state, whatever step comes next: an event just handed over is lost exactly if the mailbox was full at that moment, and an event just lost at out was the one in hand, and found out full unless it was allowed to wait and the timer fired |
| Shells.StoppedRunsAlone | internal/broker/pusher.go:26-74 | once a pusher is told to stop, only its own steps and its subscriber's reads change it, in every continuation |
| Shells.StoppedPusherFinishes | internal/broker/pusher.go:26-56 | a stopped pusher is handed nothing more, turns its loop at most mailbox-length + 1 times under every select choice, and can always move until it has closed out |
| States.State.constructor | internal/broker/broker.go:146-162 | New starts from the initial state of the resolved configuration |
| States.State.Deliver | internal/broker/broker.go:377-382 | the in-place code carries out the delivery of the model: one try-send, to the session's active pusher only |
| States.State.NotifyPeers | internal/broker/broker.go:484-492 | ranging over the pusher map in any order hands every pusher but the excluded one the event once |
| States.State.RegisterSession | internal/broker/broker.go:218-238 | the in-place code carries out the register command of the model |
| States.State.Touch | internal/broker/broker.go:250-258 | the in-place code carries out the touch command |
| States.State.UnregisterSession | internal/broker/broker.go:260-275 | the in-place code carries out the unregister command; an unknown id changes nothing, not even its pusher |
| States.State.Remove | internal/broker/broker.go:265-272 | deleting a session stops and drops its pusher and tells the others |
| States.State.ListPeers | internal/broker/broker.go:285-297 | the listing holds exactly the sessions other than the caller whose LastSeen lies within the session TTL, each once, as stored, in the order of the range |
| States.State.Lookup | internal/broker/broker.go:299-319 | it finds a session exactly if it is in the map, stale or not |
| States.State.Enqueue | internal/broker/broker.go:368-375 | evict the oldest at capacity, then append |
| States.State.Send | internal/broker/broker.go:328-356 | the in-place code carries out the send command: unknown recipient, push-only permission kinds, inbox, breaker, push |
| States.State.TripBreaker | internal/broker/livelock.go:50-74 | trip, on the loop's clock, suppresses exactly when the pair's whole history is livelocked |
| States.State.TakeToken | internal/broker/broker.go:392-417 | bucketFor and take: a synthetic entry for an unknown sender, then one attempt on its bucket |
| States.State.Broadcast | internal/broker/broker.go:384-404 | the in-place code carries out the broadcast command for the order in which the range happened to visit the map |
| States.State.Fanout | internal/broker/broker.go:419-433 | the loop visits every session once; it refines the order-indexed fan-out and counts everyone but the sender |
| States.State.Poll | internal/broker/broker.go:435-454 | the in-place code carries out the poll command |
| States.State.Subscribe | internal/broker/broker.go:456-472 | a second subscription stops the first pusher and takes its place |
| States.State.Cancel | internal/broker/broker.go:473-480 | a cancel acts only while its own pusher is the active one |
| States.State.Reap | internal/broker/broker.go:494-510 | the in-place code carries out the reap command for the order of its range |
| States.State.RemoveStale | internal/broker/broker.go:496-507 | deleting while ranging visits every session once and refines the order-indexed reap |
| States.State.ExpireMessages | internal/broker/broker.go:512-530 | every inbox keeps exactly its unexpired messages, in order |
| Observed.SentIsStored | internal/broker/broker.go:328-375 | field by field: the message last in the recipient's inbox is the caller's, with the id and time given to it and its own or the configured TTL; at capacity the oldest made room; no other inbox changes |
| Observed.SentIsPushed | internal/broker/broker.go:333-382 | field by field: exactly the recipient's active pusher is handed exactly that message, unless the recipient is unknown or the breaker holds it back |
| Observed.BroadcastIsStored | internal/broker/broker.go:384-433 | field by field: a granted broadcast leaves last in every other inbox a copy from the sender to that recipient, outside any thread, with the copy's own id and time; a refused one changes no inbox |
| Observed.BroadcastIsPushed | internal/broker/broker.go:419-433 | and exactly that copy is handed to the active pusher of every other session |
| Observed.RegisteredIsAnnounced | internal/broker/broker.go:218-238 | a registration stores and returns the new session with an empty inbox, and every other active subscription is handed exactly one peer_joined of it |
| Observed.UnregisteredIsAnnounced | internal/broker/broker.go:260-275 | an unregistration removes the session, stops its pusher, and hands every other active subscription exactly one peer_left; an unknown id has no effect |
| Observed.SubscribedAnew | internal/broker/broker.go:456-472 | a subscription gets a new pusher that has been handed nothing; the one before it is told to stop and no other changes |
| Observed.CancelEndsItsOwn | internal/broker/broker.go:473-480 | a cancel stops and forgets its own pusher if that is the active one, and does nothing otherwise |
| Observed.OthersAreSilent | internal/broker/broker.go:250-319 | touch, listing, lookup and poll hand nothing to any pusher |
| Observed.ListedAreTheOthers | internal/broker/broker.go:285-297 | the reply to a listing, in the fields of the sessions |
| Observed.LookupFindsTheStale | internal/broker/broker.go:299-319 | a lookup finds exactly the sessions that are there, also stale ones, and changes nothing |
| Observed.ReapDropsTheOld | internal/broker/broker.go:494-530 | a reap spares exactly the sessions seen within the session TTL, and in them exactly the messages no older than their own TTL |
| Observed.RecordIsAsHeard | internal/broker/broker.go:218-258 | over any run a session's record is what its registration and its touches say, and blank for an unknown sender's entry |
| Observed.ReapSparesTheHeard | internal/broker/session.go:21-26 | after any run a reap spares a session exactly if its latest registration or touch lies no longer back than the session TTL |
| Observed.ReapDropsTheUnheard | internal/broker/broker.go:408-417 | an entry that only holds an unknown sender's bucket is spared only while the TTL reaches back to the zero time |
| Inboxes.Append | internal/broker/broker.go:374-374 | append writes in place while the backing array has room and moves to a new array otherwise; either way it is sequence append |
| Inboxes.FilterInPlace | internal/broker/broker.go:518-523 | the [:0] filter that overwrites the array it reads is the order-preserving filter |
| Inboxes.FilterMembers | internal/broker/broker.go:519-523 | exactly the unexpired messages survive an expiry |
| Inboxes.Inbox.Enqueue | internal/broker/broker.go:370-375 | [1:] plus append on a shared backing array is: drop the oldest at capacity, append |
| Inboxes.Inbox.Poll | internal/broker/broker.go:446-447 | the caller gets the slice itself; the inbox starts over without a backing array |
| Inboxes.Inbox.Retain | internal/broker/broker.go:513-529 | one session's expiry, on its slice |
| Inboxes.PolledSliceIsStable | internal/broker/broker.go:436-453 | whatever happens to the same inbox later, a polled slice keeps its messages |
| Mailrooms.Mailroom.PutIn | internal/broker/broker.go:368-375 | enqueueing for one session changes no other inbox and no array that was handed out |
| Mailrooms.Mailroom.TakeAll | internal/broker/broker.go:435-454 | a poll hands out the array, and nothing the loop may still write to contains it |
| Mailrooms.Mailroom.Expire | internal/broker/broker.go:512-530 | in-place expiry over all sessions keeps inboxes apart and away from handed-out arrays |
| Mailrooms.PolledStaysPolled | internal/broker/broker.go:436-453 | after a poll, any later operations on any sessions leave the returned slice's messages as they were |
| Mailrooms.ActionIsMailOps | internal/broker/broker.go:166-530 | what each command or pusher step does to the inboxes is what its list of slice operations does |
| Mailrooms.RunIsMailOps | internal/broker/broker.go:166-530 | over any run of the broker, the model's inboxes are what the slices hold after the run's slice operations |
| Mailrooms.PolledOutlivesTheRun | internal/broker/broker.go:166-530 | after a poll and any run of the broker the slices hold what the run says, and the polled slice still holds what the poll returned |
| Pushers.StepKeepsAccount | internal/broker/pusher.go:26-56 | every step of a worker keeps the exact account: each handed-over event is queued, in hand, sent, lost at the mailbox or lost at out, and order is kept |
| Pushers.HandKeepsAccount | internal/broker/pusher.go:58-65 | so does a hand-over by the loop |
| Pushers.StepKeepsOwnership | internal/broker/pusher.go:26-37 | the worker is the only sender on out, closes it exactly once on exit, and never exceeds a channel's capacity |
| Pushers.ExactAccount | internal/broker/pusher.go:26-65 | for every accounted pusher the mailbox, the hand, out, what was read and the two kinds of loss add up to the number of events handed over |
| Pushers.DeliveryIsFifo | internal/broker/pusher.go:26-56 | what the subscriber has read and can still read is a subsequence of what was handed over |
| Deliveries.ExecTakes | internal/broker/broker.go:377-382 | of the events a command hands to a pusher exactly the first ones that still fit enter its mailbox, whatever the command, and none but those with ids it gave out carry messages |
| Deliveries.StepLoses | internal/broker/pusher.go:39-56 | an event that a worker step loses is the one in hand, and if it does not wait, out was full |
| Pushers.StoppedRunIsShort | internal/broker/pusher.go:26-56 | without hand-overs a worker takes at most mailbox-length + 1 turns, whatever the selects choose |
| Pushers.StoppedWorkerCanMove | internal/broker/pusher.go:26-56 | a stopped worker that has not exited always has a step of its own, also while its subscriber does not read |
| Pushers.Pusher.Enqueue | internal/broker/pusher.go:58-65 | the try-send is the model's hand-over |
| Pushers.Pusher.StopPush | internal/broker/pusher.go:67-74 | the try-send on the one-slot channel is the model's stop, also after the worker has exited |
| Pushers.TieredPush | internal/broker/pusher.go:39-56 | which exits forward has, in the fields of the message: with room it can send; without, an event is dropped at once exactly if it is not part of a thread, and only one that is can run into the timer |
| Pushers.Pusher.Forward | internal/broker/pusher.go:39-56 | the tiered push takes exactly one of the model's send, drop and timeout steps: drop only at a full out and never a threaded message, timeout only with one |
| Pushers.Pusher.RunStopped | internal/broker/pusher.go:26-56 | the select loop of a stopped pusher, wherever the stop caught it, terminates with out closed after at most mailbox-length + 1 turns |
| Invariants.PushersAreSafe | internal/broker/pusher.go:10-74 | over every run of commands and worker steps: no channel misuse, stopped exactly once when out of the map, deliveries in hand-over order |
| Invariants.ExecKeepsOwnership | internal/broker/broker.go:218-530 | every command keeps the map at exactly the pushers never told to stop, each under its own session |
| Invariants.ExecKeepsBounds | internal/broker/broker.go:370-375 | every command keeps every inbox within MaxInboxSize |
| Invariants.RunKeepsInvariant | internal/broker/broker.go:166-182 | both hold in every reachable state |
| Invariants.StaleCancelIsHarmless | internal/broker/broker.go:473-480 | the cancel of a replaced or stopped subscription changes nothing |
| Invariants.StoppedPusherGetsNothing | internal/broker/broker.go:377-382 | no command hands an event, or a second stop, to a pusher already told to stop |
| Conservation.PendingIsTheInbox | internal/broker/broker.go:370-375 | over any run the accepted messages not yet polled, evicted, expired or dropped are exactly the inbox, in order |
| Conservation.AccountLogsEverything | internal/broker/broker.go:345-350 | the account covers exactly the accepted ordinary and broadcast messages of the recipient, in order |
| Conservation.FatesAreFinal | internal/broker/broker.go:435-454 | a message's fate, once decided, never changes: none is returned by two polls |
| Conservation.EveryFateHasACause | internal/broker/broker.go:262-275 | each fate was decided by a poll, by a message accepted into an inbox at capacity, by a reap after the TTL, or by the end of the session |
| Conservation.EvictedByOverflow | internal/broker/broker.go:370-375 | an evicted message has at least MaxInboxSize newer accepted messages for its recipient |
| Conservation.PollsReturnTheirShare | internal/broker/broker.go:435-454 | the reply to a poll is exactly the messages whose fate is that poll |
| Conservation.InboxStep | internal/broker/broker.go:368-375 | how one action changes one session's inbox, for every action |
| Suffix.InboxIsSuffix | internal/broker/broker.go:359-375 | with the default TTL the inbox is always a contiguous suffix of what was accepted since the last poll in that session's life |
| Suffix.UnexpiredIsSuffix | internal/broker/broker.go:518-523 | expiring messages of one TTL removes a prefix |
| Suffix.ReapFreshens | internal/broker/broker.go:512-530 | right after a reap no pending message is older than its TTL |
| Suffix.PolledAgeIsBounded | internal/broker/broker.go:494-510 | a polled message is at most as old as its TTL plus the time since the last reap before the poll |
| Suffix.PolledUnlessReaped | internal/broker/broker.go:441-530 | a message not polled, evicted or dropped since it was accepted is returned by the next poll, expired or not, exactly if no reap in between came after its TTL |
| Suffix.PollCanReturnExpired | internal/broker/broker.go:441-449 | a concrete run after which a poll replies with an expired message, as no reap came in between |
| Suffix.ClockMoves | internal/broker/broker.go:359-366 | the loop's clock never goes back and an accepted message is stamped within its command |
| Independence.RunsAgreeOnStore | internal/broker/broker.go:333-351 | runs that differ only in breaker settings, subscriptions, worker scheduling or permission messages have the same sessions, buckets and inboxes and give the same replies |
| Independence.StoreIgnoresPushing | internal/broker/broker.go:333-351 | erasing the push side from a run changes no session, bucket, inbox or reply |
| Independence.BreakerOnlyThinsOut | internal/broker/broker.go:345-349 | with the breaker on, each pusher is handed a subsequence of what it is handed with it off |
| Independence.PushedAndKept | internal/broker/broker.go:333-351 | a send leaves its message both in the inbox and in the recipient's mailbox exactly if it is ordinary, its recipient is registered and subscribed, the breaker lets it through and the mailbox has room |
| Deliveries.DeliveredBothWaysIffPushable | internal/broker/broker.go:333-351 | after a send with a new id, some continuation has the subscriber read the message and a poll return it, exactly under that same condition |
| Independence.SendIgnoresItsSender | internal/broker/broker.go:328-356 | a send succeeds, and an ordinary message is kept, exactly if the recipient is there, whoever it names as its sender |
| Independence.DeliveredTwice | internal/broker/broker.go:346-349 | a concrete run in which the subscriber reads a message and the next poll returns it again, against the architecture notes |
| Livelock.LivelockTracker.Trip | internal/broker/livelock.go:50-74 | trip is true exactly when the last maxChain + 1 messages of the pair's whole history are echoes within one chain, whatever other pairs and prunes did in between |
| Livelock.LivelockTracker.Prune | internal/broker/livelock.go:76-87 | prune drops exactly the idle pairs and changes no history, so no later trip can tell |
| Livelock.DigestDecidesTrip | internal/broker/livelock.go:64-73 | the four-body window and the counter decide the history predicate |
| Livelock.DigestMeaning | internal/broker/livelock.go:64-71 | the window holds the last bodies of the live chain and the counter the length of its run of echoes |
| Livelock.IdleGapForgets | internal/broker/livelock.go:59-62 | after a gap longer than resetIdle everything said before is forgotten |
| Livelock.PeriodicEcho | internal/broker/livelock.go:9-13 | a live cycle of p distinct bodies trips exactly from message maxChain + p + 1 on if p is at most 4, and never otherwise |
| Livelock.TrippedChainSaysFewThings | internal/broker/livelock.go:104-111 | the last maxChain + 1 bodies of a tripped chain take at most four values |
| Livelock.PairKeyIdentifiesPair | internal/broker/livelock.go:89-96 | for NUL-free ids both directions of a pair, and only those, share a chain |
| Livelock.PairKeyCollidesOnNul | internal/broker/livelock.go:89-96 | ids with NUL can collide |
| Livelock.NormalizeBodyComparesWords | internal/broker/livelock.go:98-102 | two ASCII bodies normalise alike exactly when they have the same words up to case |
| TokenBuckets.TokenBucket.Take | internal/broker/broker.go:108-120 | the lazy refill grants, and leaves the bucket, exactly as the bucket that gains one capped token at every grid tick |
| TokenBuckets.LazyIsEager | internal/broker/broker.go:110-114 | k ticks in one multiplication, capped once, are k ticks one at a time |
| TokenBuckets.LevelFollowsGrid | internal/broker/broker.go:108-120 | between two attempts the bucket gains one token for each tick of the grid fixed at its creation, up to its burst |
| TokenBuckets.RefusedOnlyAfterBurst | internal/broker/broker.go:108-120 | nothing is refused before the whole burst was granted |
| TokenBuckets.GrantsInWindow | internal/broker/broker.go:108-120 | grants in a window are at most the burst plus one per interval begun |
| TokenBuckets.GrantsSinceCreation | internal/broker/broker.go:108-120 | grants since creation are at most the burst plus one per whole interval |
| TokenBuckets.GrantedAfterQuiet | internal/broker/broker.go:108-120 | an attempt after a quiet interval succeeds |
| RateLimit.BroadcastsAreLimited | internal/broker/broker.go:387-417 | both bounds over any run of the broker, per life of a session entry |
| RateLimit.QuietSenderIsServed | internal/broker/broker.go:387-417 | over any run, a sender that got nothing through in the last refill interval is not refused |
| RateLimit.RefusedOnlyAfterItsBurst | internal/broker/broker.go:387-417 | over any run, a refused sender has got its whole burst out before in the life of its entry |
| RateLimit.RunIsLived | internal/broker/broker.go:387-417 | the replies to an entry's broadcasts are those of a bucket full at the entry's creation, synthetic entries included |
| Confluence.ReapIsConfluent | internal/broker/broker.go:494-510 | for any two visiting orders a reap leaves the same sessions, inboxes and pushers and tells each surviving pusher of each reaped id once |
| Confluence.BroadcastIsConfluent | internal/broker/broker.go:419-433 | for any two visiting orders a broadcast leaves the same store and returns the same count |
| Confluence.FanoutHandsOneCopy | internal/broker/broker.go:421-433 | in any order each recipient's pusher is handed exactly its own copy |
| Effects.ReapEffect | internal/broker/broker.go:494-530 | a reap leaves exactly the sessions that are not stale, with their unexpired messages |
| Effects.BroadcastReachesEveryone | internal/broker/broker.go:408-433 | every other entry gets exactly one copy and the count is the number of entries minus one, as the sender always has one |
| Effects.EntryAfterIsRight | internal/broker/broker.go:218-530 | the entry of one session after any command, from its entry before |
| Connections.SessionLeaves | internal/daemonrpc/server.go:161-210 | a registered session leaves the broker exactly by a request made in its own name, over any connection, by the end of the connection that registered and still binds it, or by a stale reap |
| Connections.SessionStays | internal/daemonrpc/server.go:161-210 | over any interleaving of connections it stays as long as none of the three happens |
| Connections.EndRemovesExactlyTheBound | internal/daemonrpc/server.go:164-170 | the end of a connection removes its last bound session and nothing else; nothing at all if it never registered |
| Connections.BindsLastConfirmed | internal/daemonrpc/server.go:161-210 | over any run a connection binds the last session whose registration was confirmed to the peer over it, so that is the one its end unregisters |
| Connections.ServedAfterTouch | internal/daemonrpc/server.go:172-193 | over any run a request that names a session is served only once that session was touched on its behalf |
| Connections.UnconfirmedSessionStays | internal/daemonrpc/server.go:195-224 | a session whose registration reply could not be written outlives its connection, also if that binds another one |
| Connections.ReachableServer | internal/daemonrpc/server.go:226-237 | the active count is handlers started minus finished, every drop to zero is accounted for, and distinct connections hold distinct sessions |
| Connections.HookFiresOncePerDrop | internal/daemonrpc/server.go:226-237 | once set, the idle hook fires exactly once per drop to zero |
| Connections.HookMissesNothing | internal/daemonrpc/server.go:226-237 | once set, it misses no drop |
| Frames.ReadFrame | internal/daemonrpc/frame.go:43-62 | for every chunking of the reader, one ReadFrame returns what the pure reader returns and leaves the rest |
| Frames.ReadFull | internal/daemonrpc/frame.go:46-61 | reading in pieces is reading at once, with the error io.ReadFull reports |
| Frames.WriteFrame | internal/daemonrpc/frame.go:21-41 | an oversized payload writes nothing; otherwise a frame is written whole if the connection takes it, and as far as it does if not; success is exactly the whole frame |
| Frames.HeaderRoundTrip | internal/daemonrpc/frame.go:32-33 | the big-endian header is a bijection on 32-bit lengths |
| Frames.HeaderIsBigEndian | internal/daemonrpc/frame.go:32-33 | a greater length has the lexicographically greater header |
| Frames.PrefixRoundTrip | internal/daemonrpc/frame.go:43-62 | any prefix of a stream reads back as exactly the payloads wholly contained, then an error; the stream's own ending when cut at a frame boundary or right after a header |
| Frames.RoundTrip | internal/daemonrpc/frame.go:21-62 | a whole stream reads back as the payloads written |
| Frames.ReadIsFaithful | internal/daemonrpc/frame.go:43-62 | on any bytes at all, what is returned is what those bytes encode |
| Frames.Transmit | internal/daemonrpc/frame.go:21-62 | over a connection that takes so many bytes and chops as it likes, the reader gets exactly the payloads whose WriteFrame succeeded, which are those before the first that is oversized or no longer fits |
| Startup.ExclusiveIffNeverForeign | cmd/claude-bridge/serve.go:83-132 | in every run with any crashes: every live daemon past check-and-bind owns the socket path at every moment, exactly when no shutdown closes its listener after another daemon has bound |
| Startup.OneDaemon | cmd/claude-bridge/serve.go:92-107 | then there is at most one such daemon, all shims share it, and only a dead process's socket is removed as stale |
| Startup.UpMeansSetUp | cmd/claude-bridge/serve.go:109-131 | in every run a daemon is up only after its socket listens, is secured, and its pid file was written |
| Startup.StartupSectionsExclude | cmd/claude-bridge/serve.go:154-167 | in every run at all, foreign closes included, at most one process is inside a startup section |
| Startup.PidRightIffNeverLate | cmd/claude-bridge/serve.go:199-257 | while no close is foreign, the pid file names every live daemon that has written it at every moment, exactly when no shutdown removes it after another daemon has written it |
| Startup.PidFileCanBeLost | cmd/claude-bridge/serve.go:245-257 | a concrete run without a foreign close in which a late removal leaves the one daemon without its pid file |
| Startup.NoOverlapNoHarm | cmd/claude-bridge/serve.go:245-257 | if no daemon binds while another is closing down, no close is ever foreign and no pid file removal late, and the socket path and the pid file both name the one daemon that is up |
| Startup.OverlapCanLeaveTwoDaemons | cmd/claude-bridge/serve.go:245-257 | a concrete run in which a closing listener unlinks a successor's socket and two daemons serve |
| Startup.StepKeepsOrder | cmd/claude-bridge/serve.go:154-197 | every system call of every process keeps the flock, path and stale-socket invariants |
| Startup.HolderCanMove | cmd/claude-bridge/serve.go:92-103 | in every run the holder of the flock has a step to take |
| Startup.FlockIsHeldBriefly | cmd/claude-bridge/serve.go:92-103 | in every run, whatever others do, a holder takes at most eight steps before it releases the flock |
| Startup.Host.Others | cmd/claude-bridge/serve.go:86-132 | any steps of other processes leave a process where it is and neither take its flock nor give it one |
| Startup.Host.StartDaemon | cmd/claude-bridge/serve.go:83-132 | the code of startDaemon, with any interference between its calls: it gives way only to a daemon that answered, always releases the flock, comes up owning the path alone unless a close was foreign, and then named by the pid file unless a removal came late |
| Startup.Host.RecoverStaleSocket | cmd/claude-bridge/serve.go:169-183 | it reports alive only if a dial was answered; otherwise the path is free unless the removal failed, and then names a dead process's socket unless a close was foreign |
| Startup.Host.Listen | cmd/claude-bridge/serve.go:185-197 | it ends with the secured socket at the path, unless a close was foreign, or with no listener; a file is left behind only if bind or listen failed |
| Startup.Host.EnsureDaemon | cmd/claude-bridge/spawn.go:21-39 | a shim that gets a client is connected to the owner of the path |
| Startup.Host.SpawnUnderLock | cmd/claude-bridge/spawn.go:41-58 | the flock is not held in any outcome, whether or not a daemon was forked |
| Startup.Host.DialUntilReady | cmd/claude-bridge/spawn.go:74-85 | it ends connected to the process the path names, or gives up at the deadline |
| Relay.PermissionRelayIsCausal | internal/mcp/server.go:313-396 | over every run whose clients are shims: a permission frame answers as an earlier respond_permission call addressed to its session said, allow or deny with a non-empty id; a permission_request frame names a dialog its sender's host opened earlier; no poll returns a permission message |
| Relay.FramesAreFifo | internal/mcp/server.go:285-307 | what a host sees is in order the frames of a duplicate-free subsequence of the events handed to its shim's subscription |
| Relay.StepKeepsGood | internal/mcp/server.go:313-396 | every step of every shim and of the daemon keeps the invariant behind both |
| Relay.ExecGrows | internal/broker/broker.go:333-351 | where an event in a pusher comes from: a send to its owner, a broadcast copy, or a peer event |
| Relay.ForwardEvents | internal/mcp/server.go:285-307 | the frames written are those of the events taken, in order, peer events dropped, and it takes all events up to the end of the subscription, the cancellation or the first frame that cannot be written |
| Relay.ChannelMeta | internal/mcp/server.go:351-371 | which keys the meta map has, with what values, and that it has no others |
| Relay.RespondPermission | internal/mcp/tools.go:186-209 | a verdict is sent exactly for allow or deny with both ids present, and it goes to the session that asked |
| Relay.VerdictArrives | internal/mcp/server.go:313-349 | the host it goes to is told exactly the request and the behavior given, and no ordinary message looks like a verdict or a prompt |
| Relay.SayArrives | internal/mcp/tools.go:81-110 | the frame of a send_message call shows the text, the sender and the thread as the host gave them, and nothing else |
| Relay.PromptArrives | internal/mcp/server.go:313-396 | the frame of a relayed prompt goes to the peer and carries the request id to answer it by |
| Relay.PromptsGoToPeers | internal/mcp/server.go:373-420 | a dialog is relayed once to every other session seen within the session TTL, and never to the shim's own |
| Relay.HandlePermissionRequest | internal/mcp/server.go:373-426 | one request to each listed peer, in order, with the prompt text, and none for a dialog without an id |

## Left out
- States.State: an entry is a value in the session map, so the map update stands for the writes through its pointer; what sharing a backing array or a bucket in place can and cannot do is proved of `Inbox`, `Mailroom` and `TokenBucket` instead.
- States.State.TakeToken: builds a `TokenBucket` from the entry's value and stores its value back, where the code updates the entry's bucket in place.
- Suffix.InboxIsSuffix: assumes that no sender picks its own TTL, which holds for everything sent over the wire (`TTL` is not serialised and `doSend` leaves it zero).
- Startup.ExclusiveIffNeverForeign: the dial of a listening socket is taken to be answered, so a connect refused because of a full backlog is not modelled; neither is the moment between fork and exec in which a child shares the flock.
- Startup.Host.StartDaemon: a process whose flock call still blocks returns `Blocked` instead of waiting, and a crash is a step of the system, not an outcome of the method.
- Startup.Host.EnsureDaemon: polls a given number of times, where the code polls until a deadline.
- Connections.SessionLeaves: broker calls are single steps there, as the serialisability theorem allows; the daemon's shutdown is not modelled, and a register answered by a closed broker is not either.
- Relay.PermissionRelayIsCausal: JSON between daemon and shim is taken to carry a message unchanged except for its TTL; frames lost with a broken subscription stream are frames not forwarded.
- Frames.WriteFrame: a write that takes every byte and still reports an error is not modelled; after a failed write nothing more is written, as the source drops the connection.
- Relay.ForwardEvents: when the context is cancelled and which write fails are inputs of the method.
- Livelock.NormalizeBodyComparesWords: ASCII only; the Unicode cases of `strings.Fields` and `strings.ToLower` are not modelled.
- TokenBuckets.TokenBucket.Take: times and counts are unbounded integers; Go's saturating `Sub` and 64-bit wrap-around are not modelled.
- Pushers.Pusher.RunStopped: the goroutine is a method only from the stop on, when it terminates; before that it is the step system.
- Idle timing: only that the hook fires once per drop to zero. How long the daemon was idle when the timer ends it is not stated, as a connection may be counted late.
- The wall-clock length of the blocking push timeout: the timer may fire at any moment.
- JSON, UUIDs, YAML and environment configuration, logging, the CLI, launchd, `status`, `stop` and `install`, tool schemas, instruction strings and the JSON-RPC envelope of the shim.
