// The length-prefixed wire codec (internal/daemonrpc/frame.go): frames over a byte
// stream that a reader may hand out in pieces of any size and that may end, or
// break, anywhere.
module Frames {
  import opened Types

  type Byte = b: int | 0 <= b < 256
  type Bytes = seq<Byte>

  const MAX_FRAME_SIZE := 0x10_0000
  const HEADER_SIZE := 4

  // ---- The format ---------------------------------------------------------------

  function Header(n: nat): (h: Bytes)
    requires n < 0x1_0000_0000
    ensures |h| == HEADER_SIZE
  {
    [n / 0x100_0000, n / 0x1_0000 % 0x100, n / 0x100 % 0x100, n % 0x100]
  }

  function Length(h: Bytes): (n: nat)
    requires |h| == HEADER_SIZE
    ensures n < 0x1_0000_0000
  {
    var (a: int, b: int, c: int, d: int) := (h[0], h[1], h[2], h[3]);
    a * 0x100_0000 + b * 0x1_0000 + c * 0x100 + d
  }

  // The header is a bijection between lengths and four-byte prefixes.
  lemma HeaderRoundTrip(n: nat, h: Bytes)
    requires n < 0x1_0000_0000 && |h| == HEADER_SIZE
    ensures Length(Header(n)) == n
    ensures Header(Length(h)) == h
  {
    DigitsOf(n, n / 0x100, n / 0x1_0000, n / 0x100_0000);
    var a: int, b: int, c: int, d: int := h[0], h[1], h[2], h[3];
    DigitsOf(Length(h), a * 0x1_0000 + b * 0x100 + c, a * 0x100 + b, a);
  }

  // It is big-endian: a longer payload has the lexicographically greater header.
  lemma HeaderIsBigEndian(m: nat, n: nat)
    requires m < n < 0x1_0000_0000
    ensures exists k :: 0 <= k < 4 && Header(m)[..k] == Header(n)[..k] && Header(m)[k] < Header(n)[k]
    ensures Header(0x1020304) == [1, 2, 3, 4]
  {
    HeaderRoundTrip(m, Header(m));
    HeaderRoundTrip(n, Header(n));
    FirstDifference(Header(m), Header(n));
  }

  lemma FirstDifference(g: Bytes, h: Bytes)
    requires |g| == |h| == HEADER_SIZE && Length(g) < Length(h)
    ensures exists k :: 0 <= k < 4 && g[..k] == h[..k] && g[k] < h[k]
  {
    var k := if g[0] != h[0] then 0 else if g[1] != h[1] then 1 else if g[2] != h[2] then 2 else 3;
    assert g[..k] == h[..k] && g[k] < h[k];
  }

  // p, q and r are n shifted by one, two and three bytes.
  lemma DigitsOf(n: nat, p: nat, q: nat, r: nat)
    requires (n / 0x100 == p && n / 0x1_0000 == q && n / 0x100_0000 == r)
          || (n - 0x100 * p < 0x100 && 0 <= n - 0x100 * p && 0 <= p - 0x100 * q < 0x100 && 0 <= q - 0x100 * r < 0x100)
    ensures n / 0x100 == p && n / 0x1_0000 == q && n / 0x100_0000 == r
    ensures n % 0x100 == n - 0x100 * p && p % 0x100 == p - 0x100 * q && q % 0x100 == q - 0x100 * r
  {
  }

  function Framed(p: Bytes): Bytes
    requires |p| <= MAX_FRAME_SIZE
  {
    Header(|p|) + p
  }

  predicate Sendable(ps: seq<Bytes>) { forall p :: p in ps ==> |p| <= MAX_FRAME_SIZE }

  function Stream(ps: seq<Bytes>): Bytes
    requires Sendable(ps)
  {
    if ps == [] then [] else Framed(ps[0]) + Stream(ps[1..])
  }

  // ---- What reading a byte string means ---------------------------------------------

  // End of file, a short read, a failure of the transport, a length over the limit.
  datatype Error = Eof | UnexpectedEof | Broken | TooLarge(length: nat)

  datatype ReadResult =
    | Payload(payload: Bytes, rest: Bytes)
    | Failed(error: Error, rest: Bytes)

  // How io.ReadFull reports a stream that ends after `got` of the bytes it wants.
  function Short(got: nat, ending: Error): Error {
    if got > 0 && ending == Eof then UnexpectedEof else ending
  }

  // One ReadFrame on the bytes s, after which the stream ends as `ending` says.
  function ReadOne(s: Bytes, ending: Error): ReadResult {
    if |s| < HEADER_SIZE then Failed(Short(|s|, ending), [])
    else
      var n, body := Length(s[..HEADER_SIZE]), s[HEADER_SIZE..];
      if n > MAX_FRAME_SIZE then Failed(TooLarge(n), body)
      else if |body| < n then Failed(Short(|body|, ending), [])
      else Payload(body[..n], body[n..])
  }

  // Repeated ReadFrame until the first error.
  function ReadAll(s: Bytes, ending: Error): (seq<Bytes>, Error)
    decreases |s|
  {
    match ReadOne(s, ending)
    case Failed(e, _) => ([], e)
    case Payload(p, rest) => var (ps, e) := ReadAll(rest, ending); ([p] + ps, e)
  }

  lemma ReadFramed(p: Bytes, rest: Bytes, ending: Error)
    requires |p| <= MAX_FRAME_SIZE
    ensures ReadOne(Framed(p) + rest, ending) == Payload(p, rest)
  {
    var s := Framed(p) + rest;
    HeaderRoundTrip(|p|, Header(|p|));
    assert s[..HEADER_SIZE] == Header(|p|) && s[HEADER_SIZE..] == p + rest;
  }

  // A frame that is cut anywhere inside yields an error and no payload.
  lemma ReadCutFrame(p: Bytes, k: nat, ending: Error)
    requires |p| <= MAX_FRAME_SIZE && k < HEADER_SIZE + |p|
    ensures ReadOne(Framed(p)[..k], ending) ==
            Failed(if k == 0 || k == HEADER_SIZE then ending else Short(k, ending), [])
  {
    var s := Framed(p)[..k];
    if k >= HEADER_SIZE {
      HeaderRoundTrip(|p|, Header(|p|));
      assert s[..HEADER_SIZE] == Header(|p|);
    }
  }

  // The frames of ps that the first k bytes hold entirely.
  function Whole(ps: seq<Bytes>, k: nat): (m: nat)
    requires Sendable(ps)
    ensures m <= |ps|
  {
    if ps == [] || k < HEADER_SIZE + |ps[0]| then 0 else 1 + Whole(ps[1..], k - HEADER_SIZE - |ps[0]|)
  }

  // How much of the next frame they hold.
  function Cut(ps: seq<Bytes>, k: nat): nat
    requires Sendable(ps)
  {
    if ps == [] || k < HEADER_SIZE + |ps[0]| then k else Cut(ps[1..], k - HEADER_SIZE - |ps[0]|)
  }

  lemma {:induction false} WholeIsRight(ps: seq<Bytes>, k: nat)
    requires Sendable(ps)
    ensures var m := Whole(ps, k);
            && |Stream(ps[..m])| + Cut(ps, k) == k
            && (m < |ps| ==> Cut(ps, k) < HEADER_SIZE + |ps[m]|)
  {
    hide Header;
    if ps != [] && k >= HEADER_SIZE + |ps[0]| {
      WholeIsRight(ps[1..], k - HEADER_SIZE - |ps[0]|);
      var m := Whole(ps, k);
      assert ps[..m][1..] == ps[1..][..m - 1];
    } else {
      assert ps[..0] == [];
    }
  }

  // Reading the first k bytes of a stream, for any k, gives exactly the payloads wholly
  // contained in them and then an error: at a frame boundary, or right after a header,
  // the stream's own ending, and anywhere else an unexpected end of file.
  lemma {:induction false} PrefixRoundTrip(ps: seq<Bytes>, k: nat, ending: Error)
    requires Sendable(ps) && k <= |Stream(ps)|
    ensures var cut := Cut(ps, k);
            ReadAll(Stream(ps)[..k], ending) ==
            (ps[..Whole(ps, k)], if cut == 0 || cut == HEADER_SIZE then ending else Short(cut, ending))
  {
    hide ReadOne, Framed;
    if ps == [] {
      ReadNothing(ending);
    } else if k < HEADER_SIZE + |ps[0]| {
      FrameSize(ps[0]);
      assert Stream(ps)[..k] == Framed(ps[0])[..k];
      ReadCutFrame(ps[0], k, ending);
      assert ps[..0] == [];
    } else {
      var n := HEADER_SIZE + |ps[0]|;
      FrameSize(ps[0]);
      var rest := Stream(ps[1..])[..k - n];
      PrefixRoundTrip(ps[1..], k - n, ending);
      assert Stream(ps)[..k] == Framed(ps[0]) + rest;
      ReadFramed(ps[0], rest, ending);
      var m := Whole(ps, k);
      assert ps[..m] == [ps[0]] + ps[1..][..m - 1];
    }
  }

  lemma FrameSize(p: Bytes)
    requires |p| <= MAX_FRAME_SIZE
    ensures |Framed(p)| == HEADER_SIZE + |p|
  {
  }

  lemma ReadNothing(ending: Error)
    ensures ReadOne([], ending) == Failed(ending, [])
  {
  }

  // A stream, or a stream and part of one more frame, holds the stream's frames.
  lemma {:induction false} WholeOfStream(ps: seq<Bytes>, more: seq<Bytes>, cut: nat)
    requires Sendable(ps) && Sendable(more) && (more == [] || cut < HEADER_SIZE + |more[0]|)
    ensures Sendable(ps + more)
    ensures Whole(ps + more, |Stream(ps)| + cut) == |ps| && Cut(ps + more, |Stream(ps)| + cut) == cut
  {
    hide Framed;
    assert Sendable(ps + more);
    if ps == [] {
      assert ps + more == more;
    } else {
      WholeOfStream(ps[1..], more, cut);
      FrameSize(ps[0]);
      assert (ps + more)[1..] == ps[1..] + more;
    }
  }

  // The whole stream reads back as what was written.
  lemma RoundTrip(ps: seq<Bytes>, ending: Error)
    requires Sendable(ps)
    ensures ReadAll(Stream(ps), ending) == (ps, ending)
  {
    hide ReadAll, ReadOne, Framed, Whole, Cut;
    PrefixRoundTrip(ps, |Stream(ps)|, ending);
    WholeOfStream(ps, [], 0);
    assert Stream(ps)[..|Stream(ps)|] == Stream(ps) && ps + [] == ps && ps[..|ps|] == ps;
  }

  lemma PayloadIsFaithful(s: Bytes, ending: Error)
    requires ReadOne(s, ending).Payload?
    ensures var r := ReadOne(s, ending); |r.payload| <= MAX_FRAME_SIZE && s == Framed(r.payload) + r.rest
  {
    HeaderRoundTrip(0, s[..HEADER_SIZE]);
  }

  // On any bytes at all, what was returned is what the bytes up to there encode.
  lemma {:induction false} ReadIsFaithful(s: Bytes, ending: Error)
    ensures var (ps, e) := ReadAll(s, ending); Sendable(ps) && Stream(ps) <= s
    decreases |s|
  {
    var r := ReadOne(s, ending);
    if r.Payload? {
      ReadIsFaithful(r.rest, ending);
      var (ps, e) := ReadAll(r.rest, ending);
      PayloadIsFaithful(s, ending);
      hide ReadOne, Framed;
      assert Framed(r.payload) + Stream(ps) <= s;
      assert ([r.payload] + ps)[1..] == ps;
    }
  }

  lemma {:induction false} StreamSnoc(ps: seq<Bytes>, p: Bytes)
    requires Sendable(ps) && |p| <= MAX_FRAME_SIZE
    ensures Sendable(ps + [p]) && Stream(ps + [p]) == Stream(ps) + Framed(p)
  {
    assert Sendable(ps + [p]);
    if ps == [] {
      assert Stream([p]) == Framed(p) + Stream([]) by { assert [p][1..] == []; }
      assert Framed(p) + [] == Framed(p);
      assert [] + [p] == [p];
    } else {
      StreamSnoc(ps[1..], p);
      assert (ps + [p])[1..] == ps[1..] + [p];
      assert Framed(ps[0]) + (Stream(ps[1..]) + Framed(p)) == (Framed(ps[0]) + Stream(ps[1..])) + Framed(p);
    }
  }

  // ---- The code --------------------------------------------------------------------

  // A connection's read side. It hands out its bytes in pieces of its own choosing.
  class Reader {
    var pending: Bytes
    const ending: Error

    constructor (data: Bytes, ending: Error)
      ensures pending == data && this.ending == ending
    {
      pending, this.ending := data, ending;
    }

    // At least one byte, or the end; the last bytes may come with the end.
    method Read(buf: array<Byte>, at: nat) returns (n: nat, ended: bool)
      requires at < buf.Length
      modifies this, buf
      ensures n <= buf.Length - at && n <= |old(pending)|
      ensures pending == old(pending)[n..]
      ensures buf[at..at + n] == old(pending)[..n]
      ensures forall i :: 0 <= i < at ==> buf[i] == old(buf[i])
      ensures if ended then pending == [] else n > 0
    {
      n :| 0 <= n <= buf.Length - at && n <= |pending| && (n == 0 ==> pending == []);
      forall i | 0 <= i < n {
        buf[at + i] := pending[i];
      }
      pending := pending[n..];
      ended := n == 0;
      if pending == [] {
        var late: bool := *;
        ended := ended || late;
      }
    }
  }

  // io.ReadFull
  method ReadFull(r: Reader, buf: array<Byte>) returns (err: Option<Error>)
    modifies r, buf
    ensures var s, n := old(r.pending), buf.Length;
            if n <= |s| then err == None && buf[..] == s[..n] && r.pending == s[n..]
            else err == Some(Short(|s|, r.ending)) && r.pending == []
  {
    var n := 0;
    var ended := false;
    while n < buf.Length && !ended
      invariant n <= buf.Length && n <= |old(r.pending)|
      invariant buf[..n] == old(r.pending)[..n] && r.pending == old(r.pending)[n..]
      invariant ended ==> r.pending == []
      decreases !ended, buf.Length - n
    {
      ghost var m, read := n, buf[..n];
      var k: nat;
      k, ended := r.Read(buf, n);
      n := n + k;
      assert buf[..m] == read;
      assert buf[..n] == buf[..m] + buf[m..n];
      assert old(r.pending)[..n] == old(r.pending)[..m] + old(r.pending)[m..][..k];
      assert old(r.pending)[m..][k..] == old(r.pending)[n..];
    }
    if n >= buf.Length {
      assert buf[..n] == buf[..];
      return None;
    }
    return Some(if n > 0 && r.ending == Eof then UnexpectedEof else r.ending);
  }

  method ReadFrame(r: Reader) returns (res: ReadResult)
    modifies r
    ensures res == ReadOne(old(r.pending), r.ending)
    ensures r.pending == res.rest
  {
    var header := new Byte[HEADER_SIZE];
    var err := ReadFull(r, header);
    if err.Some? {
      return Failed(err.value, []);
    }
    var length := Length(header[..]);
    if length > MAX_FRAME_SIZE {
      return Failed(TooLarge(length), r.pending);
    }
    var payload := new Byte[length];
    err := ReadFull(r, payload);
    if err.Some? {
      return Failed(err.value, []);
    }
    return Payload(payload[..], r.pending);
  }

  // A connection's write side. It takes so many bytes, however many that is, and fails at
  // the next.
  class Writer {
    var written: Bytes
    var room: nat

    constructor (room: nat)
      ensures written == [] && this.room == room
    {
      written, this.room := [], room;
    }

    method Write(p: Bytes) returns (ok: bool)
      modifies this
      ensures ok <==> |p| <= old(room)
      ensures written == old(written) + Taken(p, old(room)) && room == old(room) - |Taken(p, old(room))|
    {
      ok := |p| <= room;
      written, room := written + Taken(p, room), room - |Taken(p, room)|;
    }
  }

  function Taken(p: Bytes, room: nat): Bytes { if |p| <= room then p else p[..room] }

  // WriteFrame, for a payload that is already marshalled: nothing of an oversized one, all
  // of one that fits, and otherwise as much as the connection takes.
  method WriteFrame(w: Writer, payload: Bytes) returns (ok: bool)
    modifies w
    ensures ok <==> |payload| <= 1_048_576 && |Framed(payload)| <= old(w.room)
    ensures var out := if |payload| <= MAX_FRAME_SIZE then Taken(Framed(payload), old(w.room)) else [];
            w.written == old(w.written) + out && w.room == old(w.room) - |out|
  {
    if |payload| > MAX_FRAME_SIZE {
      return false;
    }
    var header := Header(|payload|);
    ok := w.Write(header);
    if !ok {
      assert Framed(payload)[..old(w.room)] == header[..old(w.room)];
      return;
    }
    ok := w.Write(payload);
    ghost var rest := old(w.room) - HEADER_SIZE;
    assert old(w.written) + header + Taken(payload, rest) == old(w.written) + (header + Taken(payload, rest));
    if !ok { assert Framed(payload)[..old(w.room)] == header + payload[..rest]; }
  }

  // ---- From one end to the other ----------------------------------------------------

  // What the writes of one connection left on the wire: frames, then part of a frame.
  ghost predicate OnTheWire(bytes: Bytes, ps: seq<Bytes>) {
    Sendable(ps) && (bytes == Stream(ps) || exists p: Bytes, k :: CutIn(bytes, ps, p, k))
  }

  ghost predicate CutIn(bytes: Bytes, ps: seq<Bytes>, p: Bytes, k: int) {
    && Sendable(ps) && |p| <= MAX_FRAME_SIZE && 0 <= k < |Framed(p)|
    && bytes == Stream(ps) + Framed(p)[..k]
  }

  lemma WireReadsBack(bytes: Bytes, ps: seq<Bytes>, ending: Error)
    requires OnTheWire(bytes, ps)
    ensures ReadAll(bytes, ending).0 == ps
  {
    hide ReadAll, ReadOne, Framed, Whole, Cut;
    if bytes == Stream(ps) {
      RoundTrip(ps, ending);
    } else {
      var p: Bytes, k :| CutIn(bytes, ps, p, k);
      var qs := ps + [p];
      StreamSnoc(ps, p);
      assert bytes == Stream(qs)[..|bytes|];
      PrefixRoundTrip(qs, |bytes|, ending);
      FrameSize(p);
      WholeOfStream(ps, [p], k);
      assert qs[..|ps|] == ps;
    }
  }

  // Writing frames until a write fails and reading until an error, over a connection that
  // takes `room` bytes and hands them out as it likes. The reader gets exactly the payloads
  // whose WriteFrame succeeded: those before the first that is oversized or that does not
  // fit any more.
  method Transmit(payloads: seq<Bytes>, room: nat, ending: Error) returns (sent: nat, got: seq<Bytes>)
    ensures sent <= |payloads| && got == payloads[..sent]
    ensures Sendable(got) && |Stream(got)| <= room
    ensures sent < |payloads| ==> |payloads[sent]| > MAX_FRAME_SIZE || |Stream(got)| + |Framed(payloads[sent])| > room
  {
    hide Stream, Framed;
    var w := new Writer(room);
    sent := 0;
    var ok := true;
    assert Stream([]) == [] by { NothingSent(); }
    while sent < |payloads| && ok
      invariant sent <= |payloads| && OnTheWire(w.written, payloads[..sent])
      invariant ok ==> w.written == Stream(payloads[..sent]) && |w.written| + w.room == room
      invariant |Stream(payloads[..sent])| <= room
      invariant ok || sent < |payloads|
      invariant ok || |payloads[sent]| > MAX_FRAME_SIZE || |Stream(payloads[..sent])| + |Framed(payloads[sent])| > room
      decreases |payloads| - sent, ok
    {
      var p := payloads[sent];
      ghost var before := w.room;
      ok := WriteFrame(w, p);
      if ok {
        StreamSnoc(payloads[..sent], p);
        assert payloads[..sent + 1] == payloads[..sent] + [p];
        sent := sent + 1;
      } else if |p| <= MAX_FRAME_SIZE {
        assert CutIn(w.written, payloads[..sent], p, before);
      }
    }
    WireReadsBack(w.written, payloads[..sent], ending);
    var r := new Reader(w.written, ending);
    got := ReadUntilError(r);
  }

  lemma NothingSent()
    ensures Stream([]) == []
  {
  }

  method ReadUntilError(r: Reader) returns (got: seq<Bytes>)
    modifies r
    ensures got == ReadAll(old(r.pending), r.ending).0
  {
    got := [];
    ghost var all := ReadAll(r.pending, r.ending).0;
    while true
      invariant all == got + ReadAll(r.pending, r.ending).0
      decreases |r.pending|
    {
      var res := ReadFrame(r);
      if res.Failed? {
        return;
      }
      got := got + [res.payload];
    }
  }
}
