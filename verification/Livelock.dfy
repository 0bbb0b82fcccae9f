// The no-progress breaker (internal/broker/livelock.go). The tracker keeps a
// four-body window and a counter per session pair; its contract speaks only of
// the full message history of each pair.
module Livelock {
  import opened Types
  import opened Quotients

  const RECENT_WINDOW := 4

  // ---- What a livelock is, on a pair's full history ---------------------------

  datatype Obs = Obs(at: Time, body: string)

  // No idle gap before message k.
  predicate Near(h: seq<Obs>, k: int, resetIdle: Duration)
    requires 0 < k < |h|
  {
    h[k].at - h[k - 1].at <= resetIdle
  }

  // No idle gap separates message j from message i.
  ghost predicate Connected(h: seq<Obs>, j: nat, i: nat, resetIdle: Duration)
    requires i < |h|
  {
    forall k :: j < k <= i ==> Near(h, k, resetIdle)
  }

  // Message i repeats one of the four before it, within the same chain.
  ghost predicate Echo(h: seq<Obs>, i: nat, resetIdle: Duration)
    requires i < |h|
  {
    exists j: nat {:trigger Connected(h, j, i, resetIdle)} ::
      i - RECENT_WINDOW <= j < i && h[j].body == h[i].body && Connected(h, j, i, resetIdle)
  }

  // The last maxChain + 1 messages are all echoes.
  ghost predicate Trips(h: seq<Obs>, maxChain: int, resetIdle: Duration)
    requires maxChain > 0
  {
    |h| > maxChain && forall i :: |h| - 1 - maxChain <= i < |h| ==> Echo(h, i, resetIdle)
  }

  function HistoryOf(histories: map<string, seq<Obs>>, key: string): seq<Obs> {
    if key in histories then histories[key] else []
  }

  function Recorded(histories: map<string, seq<Obs>>, key: string, o: Obs): map<string, seq<Obs>> {
    histories[key := HistoryOf(histories, key) + [o]]
  }

  // ---- Pair keys ----------------------------------------------------------------

  predicate Less(a: string, b: string) {
    b != "" && (a == "" || a[0] < b[0] || (a[0] == b[0] && Less(a[1..], b[1..])))
  }

  function PairKey(a: string, b: string): string {
    if Less(b, a) then b + "\0" + a else a + "\0" + b
  }

  lemma {:induction false} LessIsTotal(a: string, b: string)
    ensures Less(a, b) || Less(b, a) || a == b
    ensures !(Less(a, b) && Less(b, a))
  {
    if a != "" && b != "" && a[0] == b[0] {
      LessIsTotal(a[1..], b[1..]);
      assert a == [a[0]] + a[1..] && b == [b[0]] + b[1..];
    }
  }

  lemma SplitAtNul(a: string, b: string, c: string, d: string)
    requires '\0' !in a && '\0' !in c
    requires a + "\0" + b == c + "\0" + d
    ensures a == c && b == d
  {
    var k, l := a + "\0" + b, c + "\0" + d;
    assert k[|a|] == '\0' && l[|c|] == '\0';
    assert forall i :: 0 <= i < |c| ==> l[i] != '\0';
    assert forall i :: 0 <= i < |a| ==> k[i] != '\0';
    assert a == k[..|a|] && c == l[..|c|] && b == k[|a| + 1..] && d == l[|c| + 1..];
  }

  // Both directions of a pair share one key, and no other NUL-free pair has it.
  lemma PairKeyIdentifiesPair(a: string, b: string, c: string, d: string)
    requires '\0' !in a && '\0' !in b && '\0' !in c && '\0' !in d
    ensures PairKey(a, b) == PairKey(c, d) <==> (a == c && b == d) || (a == d && b == c)
  {
    LessIsTotal(a, b);
    LessIsTotal(c, d);
    if PairKey(a, b) == PairKey(c, d) {
      var (x, y) := if Less(b, a) then (b, a) else (a, b);
      var (u, v) := if Less(d, c) then (d, c) else (c, d);
      SplitAtNul(x, y, u, v);
    }
  }

  // An id that may contain NUL can collide with another pair.
  lemma PairKeyCollidesOnNul()
    ensures PairKey("a\0b", "c") == PairKey("a", "b\0c")
  {
    assert !Less("c", "a\0b") && !Less("b\0c", "a");
    assert "a\0b" + "\0" + "c" == "a" + "\0" + "b\0c";
  }

  // ---- Body normalisation (ASCII) -----------------------------------------------

  predicate IsSpace(c: char) { c == ' ' || '\t' <= c <= '\r' }

  function LowerChar(c: char): char {
    if 'A' <= c <= 'Z' then c + 32 as char else c
  }

  function Lower(s: string): string { seq(|s|, i requires 0 <= i < |s| => LowerChar(s[i])) }

  predicate IsWord(w: string) { w != "" && forall i :: 0 <= i < |w| ==> !IsSpace(w[i]) }

  function WordLength(s: string): (n: nat)
    ensures n <= |s| && (forall i :: 0 <= i < n ==> !IsSpace(s[i])) && (n < |s| ==> IsSpace(s[n]))
  {
    if s == "" || IsSpace(s[0]) then 0 else 1 + WordLength(s[1..])
  }

  function Fields(s: string): (r: seq<string>)
    ensures forall w :: w in r ==> IsWord(w)
    decreases |s|
  {
    if s == "" then []
    else if IsSpace(s[0]) then Fields(s[1..])
    else [s[..WordLength(s)]] + Fields(s[WordLength(s)..])
  }

  function Join(words: seq<string>): string {
    if words == [] then "" else if |words| == 1 then words[0] else words[0] + " " + Join(words[1..])
  }

  function NormalizeBody(s: string): string { Lower(Join(Fields(s))) }

  lemma {:induction false} LowerWordLength(s: string)
    ensures WordLength(Lower(s)) == WordLength(s)
  {
    if s != "" && !IsSpace(s[0]) {
      assert Lower(s)[1..] == Lower(s[1..]);
      LowerWordLength(s[1..]);
    }
  }

  lemma {:induction false} LowerKeepsFields(s: string)
    ensures Lower(Join(Fields(s))) == Join(Fields(Lower(s)))
    decreases |s|
  {
    if s == "" {
    } else if IsSpace(s[0]) {
      assert Lower(s)[1..] == Lower(s[1..]);
      LowerKeepsFields(s[1..]);
    } else {
      var n := WordLength(s);
      LowerWordLength(s);
      assert Lower(s)[..n] == Lower(s[..n]) && Lower(s)[n..] == Lower(s[n..]);
      LowerKeepsFields(s[n..]);
      FieldsCount(s[n..]);
      var rest := Fields(s[n..]);
      if rest != [] {
        assert Lower(s[..n] + " " + Join(rest)) == Lower(s[..n]) + " " + Lower(Join(rest));
      }
    }
  }

  lemma {:induction false} FieldsCount(s: string)
    ensures |Fields(Lower(s))| == |Fields(s)|
    decreases |s|
  {
    if s == "" {
    } else if IsSpace(s[0]) {
      assert Lower(s)[1..] == Lower(s[1..]);
      FieldsCount(s[1..]);
    } else {
      LowerWordLength(s);
      assert Lower(s)[WordLength(s)..] == Lower(s[WordLength(s)..]);
      FieldsCount(s[WordLength(s)..]);
    }
  }

  lemma {:induction false} WordLengthOfPrefix(w: string, rest: string)
    requires forall i :: 0 <= i < |w| ==> !IsSpace(w[i])
    requires rest == "" || IsSpace(rest[0])
    ensures WordLength(w + rest) == |w|
  {
    if w == "" {
      assert w + rest == rest;
    } else {
      assert (w + rest)[1..] == w[1..] + rest;
      WordLengthOfPrefix(w[1..], rest);
    }
  }

  lemma {:induction false} FieldsOfJoin(words: seq<string>)
    requires forall w :: w in words ==> IsWord(w)
    ensures Fields(Join(words)) == words
  {
    if words == [] {
    } else if |words| == 1 {
      assert IsWord(words[0]);
      WordLengthOfPrefix(words[0], "");
      assert words[0] + "" == words[0];
    } else {
      assert IsWord(words[0]);
      var rest := " " + Join(words[1..]);
      var s := words[0] + rest;
      assert Join(words) == s;
      WordLengthOfPrefix(words[0], rest);
      FieldsOfJoin(words[1..]);
      assert s[..|words[0]|] == words[0] && s[|words[0]|..] == rest && rest[1..] == Join(words[1..]);
    }
  }

  // Two bodies normalise alike exactly when they have the same words up to case.
  lemma NormalizeBodyComparesWords(a: string, b: string)
    ensures NormalizeBody(a) == NormalizeBody(b) <==> Fields(Lower(a)) == Fields(Lower(b))
  {
    LowerKeepsFields(a);
    LowerKeepsFields(b);
    FieldsOfJoin(Fields(Lower(a)));
    FieldsOfJoin(Fields(Lower(b)));
  }

  // ---- The tracker ----------------------------------------------------------------

  datatype Chain = Chain(recent: seq<string>, repeats: nat, lastSeen: Time)

  // What one more body does to a chain.
  function Noted(c: Chain, body: string, now: Time): Chain {
    Chain(AppendCapped(c.recent, body, RECENT_WINDOW), if body in c.recent then c.repeats + 1 else 0, now)
  }

  // The chain state that a history leads to.
  function Digest(h: seq<Obs>, resetIdle: Duration): (c: Chain)
    requires |h| > 0
    ensures c.lastSeen == h[|h| - 1].at && c.recent != []
  {
    var n := |h| - 1;
    Noted(if n == 0 || !Near(h, n, resetIdle) then Chain([], 0, ZERO_TIME) else Digest(h[..n], resetIdle), h[n].body, h[n].at)
  }

  // `recent` holds the bodies of the longest connected suffix of h, up to four.
  ghost predicate WindowOf(recent: seq<string>, h: seq<Obs>, resetIdle: Duration) {
    var n, r := |h|, |recent|;
    && 0 < r <= n && r <= RECENT_WINDOW
    && (forall k {:trigger recent[k]} :: 0 <= k < r ==> recent[k] == h[n - r + k].body)
    && Connected(h, n - r, n - 1, resetIdle)
    && (r < RECENT_WINDOW && r < n ==> !Near(h, n - r, resetIdle))
  }

  // `repeats` is the length of the run of echoes that ends h.
  ghost predicate CountOf(repeats: nat, h: seq<Obs>, resetIdle: Duration) {
    && repeats < |h|
    && (forall i :: |h| - repeats <= i < |h| ==> Echo(h, i, resetIdle))
    && !Echo(h, |h| - 1 - repeats, resetIdle)
  }

  function AppendCapped(xs: seq<string>, v: string, cap: nat): seq<string> {
    var ys := xs + [v];
    if |ys| > cap then ys[|ys| - cap..] else ys
  }

  lemma EchoIsStable(h: seq<Obs>, o: Obs, i: nat, resetIdle: Duration)
    requires i < |h|
    ensures Echo(h + [o], i, resetIdle) == Echo(h, i, resetIdle)
  {
    var g := h + [o];
    assert forall j: nat :: j < i ==> (Connected(g, j, i, resetIdle) <==> Connected(h, j, i, resetIdle)) by {
      assert forall k :: 0 < k <= i ==> Near(g, k, resetIdle) == Near(h, k, resetIdle);
    }
    assert forall j: nat :: j <= i ==> g[j].body == h[j].body;
  }

  lemma NearIsStable(h: seq<Obs>, o: Obs, resetIdle: Duration)
    ensures forall k :: 0 < k < |h| ==> Near(h + [o], k, resetIdle) == Near(h, k, resetIdle)
  {
  }

  // A new message echoes exactly when its body is in the window of a live chain.
  lemma WindowDecidesEcho(recent: seq<string>, h: seq<Obs>, o: Obs, resetIdle: Duration)
    requires WindowOf(recent, h, resetIdle) && o.at - h[|h| - 1].at <= resetIdle
    ensures Echo(h + [o], |h|, resetIdle) <==> o.body in recent
  {
    var g, n, r := h + [o], |h|, |recent|;
    NearIsStable(h, o, resetIdle);
    if o.body in recent {
      var k :| 0 <= k < r && recent[k] == o.body;
      assert g[n - r + k].body == g[n].body && Connected(g, n - r + k, n, resetIdle);
    }
    if Echo(g, n, resetIdle) {
      var j: nat :| n - RECENT_WINDOW <= j < n && g[j].body == g[n].body && Connected(g, j, n, resetIdle);
      assert n - r <= j by { assert r < n ==> Near(g, n - r, resetIdle) == Near(h, n - r, resetIdle); }
      assert recent[j - (n - r)] == o.body;
    }
  }

  lemma WindowMoves(recent: seq<string>, h: seq<Obs>, o: Obs, resetIdle: Duration)
    requires WindowOf(recent, h, resetIdle) && o.at - h[|h| - 1].at <= resetIdle
    ensures WindowOf(AppendCapped(recent, o.body, RECENT_WINDOW), h + [o], resetIdle)
  {
    NearIsStable(h, o, resetIdle);
  }

  lemma CountMoves(repeats: nat, h: seq<Obs>, o: Obs, resetIdle: Duration)
    requires CountOf(repeats, h, resetIdle)
    ensures CountOf(if Echo(h + [o], |h|, resetIdle) then repeats + 1 else 0, h + [o], resetIdle)
  {
    forall i | 0 <= i < |h| ensures Echo(h + [o], i, resetIdle) == Echo(h, i, resetIdle) {
      EchoIsStable(h, o, i, resetIdle);
    }
  }

  // After an idle gap (or at the very start) nothing can be an echo.
  lemma ChainStartsFresh(h: seq<Obs>, o: Obs, resetIdle: Duration)
    requires |h| > 0 ==> o.at - h[|h| - 1].at > resetIdle
    ensures !Echo(h + [o], |h|, resetIdle)
    ensures WindowOf([o.body], h + [o], resetIdle) && CountOf(0, h + [o], resetIdle)
  {
    var g := h + [o];
    assert |h| > 0 ==> !Near(g, |h|, resetIdle);
  }

  lemma DigestStep(h: seq<Obs>, o: Obs, resetIdle: Duration)
    ensures Digest(h + [o], resetIdle) ==
            Noted(if h == [] || o.at - h[|h| - 1].at > resetIdle then Chain([], 0, ZERO_TIME) else Digest(h, resetIdle), o.body, o.at)
  {
    assert (h + [o])[..|h|] == h;
  }

  lemma NotedStarts(h: seq<Obs>, o: Obs, resetIdle: Duration)
    requires |h| > 0 ==> o.at - h[|h| - 1].at > resetIdle
    ensures var c := Noted(Chain([], 0, ZERO_TIME), o.body, o.at);
            WindowOf(c.recent, h + [o], resetIdle) && CountOf(c.repeats, h + [o], resetIdle)
  {
    ChainStartsFresh(h, o, resetIdle);
    hide WindowOf, CountOf;
    assert [] + [o.body] == [o.body];
  }

  lemma NotedKeeps(c: Chain, h: seq<Obs>, o: Obs, resetIdle: Duration)
    requires WindowOf(c.recent, h, resetIdle) && CountOf(c.repeats, h, resetIdle)
    requires o.at - h[|h| - 1].at <= resetIdle
    ensures var d := Noted(c, o.body, o.at);
            WindowOf(d.recent, h + [o], resetIdle) && CountOf(d.repeats, h + [o], resetIdle)
  {
    WindowDecidesEcho(c.recent, h, o, resetIdle);
    WindowMoves(c.recent, h, o, resetIdle);
    CountMoves(c.repeats, h, o, resetIdle);
    hide WindowOf, CountOf, Echo, AppendCapped;
  }

  // The digest keeps the window and the counter.
  lemma {:induction false} DigestMeaning(h: seq<Obs>, resetIdle: Duration)
    requires |h| > 0
    ensures WindowOf(Digest(h, resetIdle).recent, h, resetIdle)
    ensures CountOf(Digest(h, resetIdle).repeats, h, resetIdle)
  {
    var n := |h| - 1;
    var g, o := h[..n], h[n];
    assert g + [o] == h;
    DigestStep(g, o, resetIdle);
    hide Digest, WindowOf, CountOf, Noted;
    if n == 0 || o.at - g[n - 1].at > resetIdle {
      NotedStarts(g, o, resetIdle);
    } else {
      DigestMeaning(g, resetIdle);
      NotedKeeps(Digest(g, resetIdle), g, o, resetIdle);
    }
  }

  lemma DigestDecidesTrip(h: seq<Obs>, maxChain: int, resetIdle: Duration)
    requires |h| > 0 && maxChain > 0
    ensures Digest(h, resetIdle).repeats > maxChain <==> Trips(h, maxChain, resetIdle)
  {
    DigestMeaning(h, resetIdle);
    assert !Echo(h, |h| - 1 - Digest(h, resetIdle).repeats, resetIdle);
  }

  class LivelockTracker {
    const enabled: bool
    const maxChain: int
    const resetIdle: Duration
    var pairs: map<string, Chain>
    // Everything ever recorded, per pair, and the latest clock reading.
    ghost var histories: map<string, seq<Obs>>
    ghost var latest: Time

    ghost predicate Valid()
      reads this
    {
      && (forall k :: k in pairs ==>
            && k in histories && |histories[k]| > 0
            && pairs[k] == Digest(histories[k], resetIdle)
            && pairs[k].lastSeen <= latest)
      // A pair without state is new or has been idle for too long already.
      && (forall k :: k in histories && k !in pairs ==>
            |histories[k]| > 0 && latest - histories[k][|histories[k]| - 1].at > resetIdle)
    }

    constructor (cfg: Config, ghost now: Time)
      ensures Valid() && histories == map[] && latest == now
      ensures enabled == cfg.livelockEnabled && maxChain == cfg.livelockMaxChain && resetIdle == cfg.livelockResetIdle
    {
      enabled, maxChain, resetIdle := cfg.livelockEnabled, cfg.livelockMaxChain, cfg.livelockResetIdle;
      pairs, histories, latest := map[], map[], now;
    }

    // trip: record msg against its pair and say whether the pair is livelocked.
    method Trip(msg: Message, now: Time) returns (tripped: bool)
      requires Valid() && latest <= now
      modifies this
      ensures Valid() && latest == now
      ensures !enabled || maxChain <= 0 ==> !tripped && histories == old(histories)
      ensures enabled && maxChain > 0 ==>
                var key := PairKey(msg.from, msg.to);
                && histories == Recorded(old(histories), key, Obs(now, NormalizeBody(msg.content)))
                && tripped == Trips(histories[key], maxChain, resetIdle)
    {
      hide PairKey, NormalizeBody, Trips;
      if !enabled || maxChain <= 0 {
        latest := now;
        return false;
      }
      tripped := Note(PairKey(msg.from, msg.to), NormalizeBody(msg.content), now);
    }

    // The rest of trip, for the normalised body and the key of the pair.
    method Note(key: string, body: string, now: Time) returns (tripped: bool)
      requires Valid() && latest <= now && maxChain > 0
      modifies this
      ensures Valid() && latest == now
      ensures histories == Recorded(old(histories), key, Obs(now, body))
      ensures tripped == Trips(histories[key], maxChain, resetIdle)
    {
      hide Noted, Digest, Trips;
      ghost var h, o := HistoryOf(histories, key), Obs(now, body);
      DigestStep(h, o, resetIdle);
      DigestDecidesTrip(h + [o], maxChain, resetIdle);
      var cs := Chain([], 0, ZERO_TIME);
      if key in pairs && now - pairs[key].lastSeen <= resetIdle {
        cs := pairs[key];
      }
      cs := Noted(cs, body, now);
      pairs := pairs[key := cs];
      latest, histories := now, Recorded(histories, key, o);
      return cs.repeats > maxChain;
    }

    // prune: forget idle pairs. No later Trip can tell.
    method Prune(now: Time)
      requires Valid() && latest <= now
      modifies this
      ensures Valid() && latest == now && histories == old(histories)
      ensures forall k :: k in pairs <==> k in old(pairs) && now - old(pairs)[k].lastSeen <= resetIdle
    {
      hide Digest;
      var todo := pairs.Keys;
      while todo != {}
        invariant histories == old(histories) && latest == old(latest)
        invariant todo <= pairs.Keys <= old(pairs).Keys
        invariant forall k :: k in pairs ==> pairs[k] == old(pairs)[k]
        invariant forall k :: k in old(pairs) && k !in todo ==>
                    (k in pairs <==> now - old(pairs)[k].lastSeen <= resetIdle)
        decreases |todo|
      {
        var key :| key in todo;
        todo := todo - {key};
        if now - pairs[key].lastSeen > resetIdle {
          pairs := pairs - {key};
        }
      }
      latest := now;
    }
  }

  // An idle gap starts a chain over: whatever the pair said before it is forgotten.
  lemma IdleGapForgets(g: seq<Obs>, h: seq<Obs>, maxChain: int, resetIdle: Duration)
    requires |g| > 0 && |h| > 0 && maxChain > 0 && h[0].at - g[|g| - 1].at > resetIdle
    ensures Trips(g + h, maxChain, resetIdle) <==> Trips(h, maxChain, resetIdle)
  {
    var f, n := g + h, |g|;
    assert !Near(f, n, resetIdle);
    forall i: nat | i < |h| ensures Echo(f, n + i, resetIdle) <==> Echo(h, i, resetIdle) {
      EchoAfterGap(g, h, i, resetIdle);
    }
    assert !Echo(f, n, resetIdle);
    if Trips(f, maxChain, resetIdle) {
      forall i: nat | |h| - 1 - maxChain <= i < |h| ensures Echo(h, i, resetIdle) { assert Echo(f, n + i, resetIdle); }
    }
    if Trips(h, maxChain, resetIdle) {
      forall i: nat | |f| - 1 - maxChain <= i < |f| ensures Echo(f, i, resetIdle) { assert Echo(h, i - n, resetIdle); }
    }
  }

  lemma EchoAfterGap(g: seq<Obs>, h: seq<Obs>, i: nat, resetIdle: Duration)
    requires |g| > 0 && i < |h| && h[0].at - g[|g| - 1].at > resetIdle
    ensures Echo(g + h, |g| + i, resetIdle) <==> Echo(h, i, resetIdle)
  {
    var f, n := g + h, |g|;
    assert !Near(f, n, resetIdle);
    forall k | 0 < k <= i ensures Near(f, n + k, resetIdle) <==> Near(h, k, resetIdle) {}
    if Echo(f, n + i, resetIdle) {
      var j: nat :| n + i - RECENT_WINDOW <= j < n + i && f[j].body == f[n + i].body && Connected(f, j, n + i, resetIdle);
      forall k | j - n < k <= i ensures Near(h, k, resetIdle) { assert Near(f, n + k, resetIdle); }
      assert Connected(h, j - n, i, resetIdle);
    }
    if Echo(h, i, resetIdle) {
      var j: nat :| i - RECENT_WINDOW <= j < i && h[j].body == h[i].body && Connected(h, j, i, resetIdle);
      forall k | n + j < k <= n + i ensures Near(f, k, resetIdle) { assert Near(h, k - n, resetIdle); }
      assert Connected(f, n + j, n + i, resetIdle);
    }
  }

  // ---- What the breaker detects ------------------------------------------------------

  // A live cycle of p distinct bodies trips at message maxChain + p + 1 and at every
  // later one when p is at most 4, and never when p is larger.
  lemma PeriodicEcho(h: seq<Obs>, cycle: seq<string>, maxChain: int, resetIdle: Duration)
    requires maxChain > 0 && |cycle| > 0
    requires forall i, j :: 0 <= i < j < |cycle| ==> cycle[i] != cycle[j]
    requires forall i :: 0 <= i < |h| ==> h[i].body == cycle[i % |cycle|]
    requires |h| > 0 ==> Connected(h, 0, |h| - 1, resetIdle)
    ensures Trips(h, maxChain, resetIdle) <==> |cycle| <= RECENT_WINDOW && |h| >= maxChain + |cycle| + 1
  {
    forall i: nat | i < |h|
      ensures Echo(h, i, resetIdle) <==> |cycle| <= RECENT_WINDOW && |cycle| <= i
    {
      PeriodicEchoAt(h, cycle, i, resetIdle);
    }
    if Trips(h, maxChain, resetIdle) {
      assert Echo(h, |h| - 1 - maxChain, resetIdle);
    }
  }

  lemma PeriodicEchoAt(h: seq<Obs>, cycle: seq<string>, i: nat, resetIdle: Duration)
    requires |cycle| > 0 && i < |h|
    requires forall i, j :: 0 <= i < j < |cycle| ==> cycle[i] != cycle[j]
    requires forall i :: 0 <= i < |h| ==> h[i].body == cycle[i % |cycle|]
    requires Connected(h, 0, |h| - 1, resetIdle)
    ensures Echo(h, i, resetIdle) <==> |cycle| <= RECENT_WINDOW && |cycle| <= i
  {
    var p := |cycle|;
    if p <= RECENT_WINDOW && p <= i {
      ModPeriod(i - p, p);
      assert h[i - p].body == h[i].body && Connected(h, i - p, i, resetIdle);
    }
    if Echo(h, i, resetIdle) {
      var j: nat :| i - RECENT_WINDOW <= j < i && h[j].body == h[i].body && Connected(h, j, i, resetIdle);
      assert j % p == i % p;
      if i - j < p { ModDistinct(j, i, p); }
    }
  }

  lemma ModPeriod(x: nat, p: nat)
    requires p > 0
    ensures (x + p) % p == x % p
  {
    var q := x / p;
    assert x == q * p + x % p;
    MulDistributes(q, 1, p);
    DivUnique(x + p, p, q + 1);
  }

  lemma ModDistinct(j: nat, i: nat, p: nat)
    requires p > 0 && j < i < j + p
    ensures j % p != i % p
  {
    var a, b := j / p, i / p;
    assert j == a * p + j % p && i == b * p + i % p;
    MulDistributes(a, b - a, p);
    if b <= a {
      MulMonotone(b - a, 0, p);
    } else {
      MulMonotone(1, b - a, p);
    }
  }

  ghost function Bodies(h: seq<Obs>, i: int, j: int): set<string>
    requires j <= |h|
  {
    set k | 0 <= k < j && i <= k :: h[k].body
  }

  // However the chain came about, a livelocked tail says at most four different things.
  lemma TrippedChainSaysFewThings(h: seq<Obs>, maxChain: int, resetIdle: Duration)
    requires maxChain > 0 && Trips(h, maxChain, resetIdle)
    ensures |Bodies(h, |h| - 1 - maxChain, |h|)| <= RECENT_WINDOW
  {
    var s := |h| - 1 - maxChain;
    EchoesStayInWindow(h, s, |h|, resetIdle);
    BodiesSize(h, s - RECENT_WINDOW, s);
    SubsetSize(Bodies(h, s, |h|), Bodies(h, s - RECENT_WINDOW, s));
  }

  lemma {:induction false} EchoesStayInWindow(h: seq<Obs>, s: nat, e: nat, resetIdle: Duration)
    requires s <= e <= |h| && forall i :: s <= i < e ==> Echo(h, i, resetIdle)
    ensures Bodies(h, s, e) <= Bodies(h, s - RECENT_WINDOW, s)
    decreases e
  {
    if s < e {
      EchoesStayInWindow(h, s, e - 1, resetIdle);
      assert Echo(h, e - 1, resetIdle);
      var j: nat :| e - 1 - RECENT_WINDOW <= j < e - 1 && h[j].body == h[e - 1].body && Connected(h, j, e - 1, resetIdle);
      if j < s {
        assert h[j].body in Bodies(h, s - RECENT_WINDOW, s);
      } else {
        assert h[j].body in Bodies(h, s, e - 1);
      }
      assert Bodies(h, s, e) == Bodies(h, s, e - 1) + {h[e - 1].body};
    }
  }

  lemma {:induction false} BodiesSize(h: seq<Obs>, i: int, j: nat)
    requires i <= j <= |h|
    ensures |Bodies(h, i, j)| <= j - i
    decreases j
  {
    if i < j && j > 0 {
      BodiesSize(h, i, j - 1);
      assert Bodies(h, i, j) == Bodies(h, i, j - 1) + {h[j - 1].body};
    }
  }

  lemma SubsetSize<T>(a: set<T>, b: set<T>)
    requires a <= b
    ensures |a| <= |b|
  {
    assert b == a + (b - a);
  }
}
