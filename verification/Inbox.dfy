// A session's pending inbox (enqueue, Poll and expireMessages of
// internal/broker/broker.go): what it holds, as a sequence, and how a Go slice
// holds it, as a window of a backing array.
module Inboxes {
  import opened Types

  // enqueue: evict the oldest at capacity, then append.
  function Enqueued<T>(inbox: seq<T>, m: T, max: int): (r: seq<T>)
    requires max > 0
    ensures |inbox| <= max ==> |r| <= max
  {
    (if |inbox| >= max then inbox[1..] else inbox) + [m]
  }

  // The elements that satisfy keep, in order.
  function Filter<T>(xs: seq<T>, keep: T -> bool): (r: seq<T>)
    ensures |r| <= |xs|
  {
    if xs == [] then []
    else
      var n := |xs| - 1;
      Filter(xs[..n], keep) + if keep(xs[n]) then [xs[n]] else []
  }

  lemma {:induction false} FilterMembers<T>(xs: seq<T>, keep: T -> bool, x: T)
    ensures x in Filter(xs, keep) <==> x in xs && keep(x)
  {
    if xs != [] {
      var n := |xs| - 1;
      FilterMembers(xs[..n], keep, x);
      assert xs == xs[..n] + [xs[n]];
    }
  }

  lemma FilterStep<T>(xs: seq<T>, keep: T -> bool, k: nat)
    requires k < |xs|
    ensures Filter(xs[..k + 1], keep) == Filter(xs[..k], keep) + if keep(xs[k]) then [xs[k]] else []
  {
    assert xs[..k + 1][..k] == xs[..k];
  }

  lemma FilterNone<T>(keep: T -> bool)
    ensures Filter([], keep) == []
  {
  }

  function Live(now: Time): Message -> bool { (m: Message) => !m.Expired(now) }

  // expireMessages: the messages whose TTL has not elapsed.
  function Unexpired(inbox: seq<Message>, now: Time): seq<Message> { Filter(inbox, Live(now)) }

  // ---- Go slices ------------------------------------------------------------------

  // A window of a backing array; nil has none.
  datatype Slice<T> = Slice(buf: array?<T>, off: nat, len: nat)

  ghost predicate InBounds<T>(s: Slice<T>) {
    if s.buf == null then s.off == s.len == 0 else s.off + s.len <= s.buf.Length
  }

  ghost function Elements<T>(s: Slice<T>): seq<T>
    requires InBounds(s)
    reads s.buf
  {
    if s.buf == null then [] else s.buf[s.off..s.off + s.len]
  }

  // append: in place while the backing array has room, else into a new array of
  // whatever capacity the runtime chooses.
  method Append<T(0)>(s: Slice<T>, x: T) returns (r: Slice<T>)
    requires InBounds(s)
    modifies s.buf
    ensures InBounds(r) && Elements(r) == old(Elements(s)) + [x]
    ensures if s.buf != null && s.off + s.len < s.buf.Length then r.buf == s.buf && r.off == s.off
            else r.buf != null && fresh(r.buf)
  {
    if s.buf != null && s.off + s.len < s.buf.Length {
      s.buf[s.off + s.len] := x;
      return Slice(s.buf, s.off, s.len + 1);
    }
    var cap: nat :| cap >= s.len + 1;
    var a := new T[cap];
    if s.buf != null {
      forall i | 0 <= i < s.len {
        a[i] := s.buf[s.off + i];
      }
    }
    a[s.len] := x;
    return Slice(a, 0, s.len + 1);
  }

  // The filter of expireMessages: kept grows over the array being read, behind the
  // read index.
  method FilterInPlace<T>(s: Slice<T>, keep: T -> bool) returns (r: Slice<T>)
    requires InBounds(s) && s.len > 0
    modifies s.buf
    ensures InBounds(r) && Elements(r) == Filter(old(Elements(s)), keep)
    ensures r.buf == s.buf || r.buf == null
  {
    hide Filter;
    var buf, off, len := s.buf, s.off, s.len;
    ghost var was := buf[off..off + len];
    FilterNone(keep);
    var kept := 0;
    for k := 0 to len
      invariant kept <= k
      invariant buf[off..off + kept] == Filter(was[..k], keep)
      invariant forall i :: k <= i < len ==> buf[off + i] == was[i]
    {
      FilterStep(was, keep, k);
      if keep(buf[off + k]) {
        buf[off + kept] := buf[off + k];
        kept := kept + 1;
      }
    }
    assert was[..len] == was;
    return if kept == 0 then Slice(null, 0, 0) else Slice(buf, off, kept);
  }

  datatype Op<!T> = Put(x: T, max: int) | Retain(keep: T -> bool) | PollAgain

  class Inbox<T(0)> {
    var slice: Slice<T>
    // The backing arrays that Poll has handed out.
    ghost var given: set<array<T>>

    ghost predicate Valid()
      reads this
    {
      InBounds(slice) && (slice.buf != null ==> slice.buf !in given)
    }

    ghost function Contents(): seq<T>
      requires Valid()
      reads this, slice.buf
    {
      Elements(slice)
    }

    constructor ()
      ensures Valid() && Contents() == [] && given == {} && slice.buf == null
    {
      slice, given := Slice(null, 0, 0), {};
    }

    // enqueue
    method Enqueue(x: T, max: int)
      requires Valid() && max > 0
      modifies this, slice.buf
      ensures Valid() && given == old(given)
      ensures slice.buf == old(slice.buf) || (slice.buf != null && fresh(slice.buf))
      ensures Contents() == Enqueued(old(Contents()), x, max)
    {
      if slice.len >= max {
        slice := Slice(slice.buf, slice.off + 1, slice.len - 1);
      }
      slice := Append(slice, x);
    }

    // Poll: the caller gets the slice itself, and the inbox starts over from nil.
    method Poll() returns (s: Slice<T>)
      requires Valid()
      modifies this
      ensures Valid() && s == old(slice) && InBounds(s)
      ensures Contents() == [] && slice.buf == null
      ensures given == old(given) + if s.buf == null then {} else {s.buf}
    {
      s := slice;
      given := given + if s.buf == null then {} else {s.buf};
      slice := Slice(null, 0, 0);
    }

    // The body of expireMessages, for one session.
    method Retain(keep: T -> bool)
      requires Valid()
      modifies this, slice.buf
      ensures Valid() && given == old(given)
      ensures slice.buf == old(slice.buf) || slice.buf == null
      ensures Contents() == Filter(old(Contents()), keep)
    {
      if slice.len == 0 {
        return;
      }
      slice := FilterInPlace(slice, keep);
    }
  }

  // Whatever happens to the inbox after a Poll, the slice that Poll returned keeps
  // its messages.
  method PolledSliceIsStable<T(0)>(inbox: Inbox<T>, ops: seq<Op<T>>) returns (s: Slice<T>)
    requires inbox.Valid()
    requires forall i :: 0 <= i < |ops| && ops[i].Put? ==> ops[i].max > 0
    modifies inbox, inbox.slice.buf
    ensures InBounds(s) && Elements(s) == old(inbox.Contents())
  {
    s := inbox.Poll();
    for i := 0 to |ops|
      invariant inbox.Valid() && InBounds(s)
      invariant inbox.slice.buf == null || fresh(inbox.slice.buf)
      invariant s.buf != null ==> s.buf in inbox.given && s.buf == old(inbox.slice.buf)
      invariant Elements(s) == old(inbox.Contents())
    {
      match ops[i]
      case Put(x, max) => inbox.Enqueue(x, max);
      case Retain(keep) => inbox.Retain(keep);
      case PollAgain => var other := inbox.Poll();
    }
  }
}
