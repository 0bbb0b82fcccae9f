// The value types shared by every component: messages, sessions, push events
// and the broker configuration.
module Types {

  type Id = string
  // Instants and durations count nanoseconds; the zero instant is Go's zero time.
  type Time = int
  type Duration = int

  const ZERO_TIME: Time := 0
  const SECOND: Duration := 1_000_000_000
  const MINUTE: Duration := 60 * SECOND

  datatype Option<+T> = None | Some(value: T)

  // What a message is for; sessions talk to each other in messages without a kind.
  const KIND_MESSAGE := ""
  const KIND_PERMISSION_REQUEST := "permission_request"
  const KIND_PERMISSION_VERDICT := "permission_verdict"

  datatype Message = Message(
    id: Id, from: Id, to: Id, content: string, createdAt: Time, ttl: Duration,
    inReplyTo: Id, expectsReply: bool, kind: string, requestId: string)
  {
    // A reply, or a message that asks for one, is pushed with a bounded blocking send.
    predicate WantsBlockingPush() { inReplyTo != "" || expectsReply }

    predicate Expired(now: Time) { now - createdAt > ttl }
  }

  datatype Session = Session(id: Id, projectPath: string, registeredAt: Time, lastSeen: Time)
  {
    predicate IsStaleAt(now: Time, d: Duration) { now - lastSeen > d }
  }

  // The metadata of an entry made only to hold an unknown sender's bucket.
  const BLANK_SESSION := Session("", "", ZERO_TIME, ZERO_TIME)

  datatype Event =
    | MessageEvent(msg: Message)
    | PeerJoined(session: Session)
    | PeerLeft(id: Id)
  {
    predicate Blocking() { MessageEvent? && msg.WantsBlockingPush() }
  }

  function OrDefault(x: int, d: int): (r: int)
    requires d > 0
    ensures r > 0 && (x > 0 ==> r == x) && (x <= 0 ==> r == d)
  {
    if x <= 0 then d else x
  }

  datatype Config = Config(
    messageTTL: Duration, sessionTTL: Duration, maxInboxSize: int, cleanupTick: Duration,
    broadcastBurst: int, broadcastRefill: Duration,
    livelockEnabled: bool, livelockMaxChain: int, livelockResetIdle: Duration)
  {
    // Every field that is zero or negative falls back to its package default.
    function WithDefaults(): (r: Config)
      ensures r.Resolved()
      ensures Resolved() ==> r == this
      ensures r.livelockEnabled == livelockEnabled
      ensures r.messageTTL == (if messageTTL > 0 then messageTTL else 300_000_000_000)
      ensures r.sessionTTL == (if sessionTTL > 0 then sessionTTL else 1_800_000_000_000)
      ensures r.maxInboxSize == (if maxInboxSize > 0 then maxInboxSize else 100)
      ensures r.cleanupTick == (if cleanupTick > 0 then cleanupTick else 60_000_000_000)
      ensures r.broadcastBurst == (if broadcastBurst > 0 then broadcastBurst else 3)
      ensures r.broadcastRefill == (if broadcastRefill > 0 then broadcastRefill else 10_000_000_000)
      ensures r.livelockMaxChain == (if livelockMaxChain > 0 then livelockMaxChain else 20)
      ensures r.livelockResetIdle == (if livelockResetIdle > 0 then livelockResetIdle else 60_000_000_000)
    {
      Config(
        OrDefault(messageTTL, 5 * MINUTE), OrDefault(sessionTTL, 30 * MINUTE), OrDefault(maxInboxSize, 100),
        OrDefault(cleanupTick, MINUTE), OrDefault(broadcastBurst, 3), OrDefault(broadcastRefill, 10 * SECOND),
        livelockEnabled, OrDefault(livelockMaxChain, 20), OrDefault(livelockResetIdle, 60 * SECOND))
    }

    predicate Resolved() {
      && messageTTL > 0 && sessionTTL > 0 && maxInboxSize > 0 && cleanupTick > 0
      && broadcastBurst > 0 && broadcastRefill > 0
      && livelockMaxChain > 0 && livelockResetIdle > 0
    }
  }

  // What the broker runs on: a configuration that has been through WithDefaults.
  type Settings = c: Config | c.Resolved() witness Config(1, 1, 1, 1, 1, 1, true, 1, 1)
}
